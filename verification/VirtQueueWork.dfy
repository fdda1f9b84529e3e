// The work functions of a virtqueue in virtio_fs.c on its lists, with nothing happening in between.
module VirtQueueWork {
  import opened VirtQueue

  // What one run of the dispatch worker does with the retry list: requests sent, requests that failed for good, and
  // what is on the list afterwards.  A full virtqueue stops it, and the request goes to the end of the list.
  datatype Dispatched = Dispatched(sent: seq<Rid>, failed: seq<Rid>, rest: seq<Rid>)

  function Dispatch(q: seq<Rid>, res: Rid -> Result): Dispatched {
    if q == [] then Dispatched([], [], [])
    else if res(q[0]).Full? then Dispatched([], [], q[1..] + [q[0]])
    else
      var d := Dispatch(q[1..], res);
      if res(q[0]).Sent? then d.(sent := [q[0]] + d.sent) else d.(failed := [q[0]] + d.failed)
  }

  // No request is lost or duplicated, and the order is kept.
  lemma {:induction false} DispatchConserves(q: seq<Rid>, res: Rid -> Result)
    ensures var d := Dispatch(q, res);
            multiset(d.sent) + multiset(d.failed) + multiset(d.rest) == multiset(q)
  {
    if q != [] {
      assert q == [q[0]] + q[1..];
      if !res(q[0]).Full? {
        DispatchConserves(q[1..], res);
      }
    }
  }

  class Fsvq {
    var inFlight: int
    var connected: bool
    var queue: seq<Rid>          // on the virtqueue
    var queuedReqs: seq<Rid>
    var endReqs: seq<Rid>
    var ended: seq<Rid>          // given to fuse_request_end
    var zero: bool               // in_flight_zero
    ghost var elsewhere: nat     // with other workers

    ghost predicate Valid()
      reads this
    {
      inFlight == |queue| + |queuedReqs| + elsewhere
    }

    // dec_in_flight_req
    method Dec()
      requires inFlight > 0
      modifies this`inFlight, this`zero
      ensures inFlight == old(inFlight) - 1 && zero == (old(zero) || inFlight == 0)
    {
      inFlight := inFlight - 1;
      if inFlight == 0 {
        zero := true;
      }
    }

    // virtio_fs_request_dispatch_work, first loop
    method EndFailed()
      modifies this`endReqs, this`ended
      ensures endReqs == [] && ended == old(ended) + old(endReqs)
    {
      while endReqs != []
        invariant ended + endReqs == old(ended) + old(endReqs)
        decreases |endReqs|
      {
        var req := endReqs[0];
        assert endReqs == [req] + endReqs[1..];
        endReqs := endReqs[1..];
        ended := ended + [req];
      }
    }

    // ... and second loop; ret is what virtio_fs_enqueue_req returns for each request
    method DispatchPending(ret: Rid -> Result)
      requires Valid()
      modifies this`inFlight, this`zero, this`queue, this`queuedReqs, this`ended
      ensures Valid()
      ensures var d := Dispatch(old(queuedReqs), ret);
              && queue == old(queue) + d.sent && queuedReqs == d.rest && ended == old(ended) + d.failed
              && inFlight == old(inFlight) - |d.failed|
    {
      ghost var sent: seq<Rid>, failed: seq<Rid> := [], [];
      while queuedReqs != []
        invariant Valid() && queue == old(queue) + sent && ended == old(ended) + failed
          && inFlight == old(inFlight) - |failed|
        invariant var d := Dispatch(queuedReqs, ret);
                  Dispatch(old(queuedReqs), ret) == Dispatched(sent + d.sent, failed + d.failed, d.rest)
        decreases |queuedReqs|
      {
        var req := queuedReqs[0];
        ghost var d := Dispatch(queuedReqs[1..], ret);
        queuedReqs := queuedReqs[1..];
        if ret(req).Full? {
          queuedReqs := queuedReqs + [req];
          return;
        } else if ret(req).Failed? {
          assert failed + ([req] + d.failed) == failed + [req] + d.failed;
          Dec();
          ended, failed := ended + [req], failed + [req];
        } else {
          assert sent + ([req] + d.sent) == sent + [req] + d.sent;
          queue, sent := queue + [req], sent + [req];
        }
      }
    }

    method RequestDispatchWork(ret: Rid -> Result)
      requires Valid()
      modifies this`inFlight, this`zero, this`queue, this`queuedReqs, this`endReqs, this`ended
      ensures Valid() && endReqs == []
      ensures var d := Dispatch(old(queuedReqs), ret);
              && queue == old(queue) + d.sent && queuedReqs == d.rest && ended == old(ended) + old(endReqs) + d.failed
              && inFlight == old(inFlight) - |d.failed|
    {
      EndFailed();
      DispatchPending(ret);
    }

    // virtio_fs_requests_done_work and virtio_fs_request_complete for each request collected: all that were on the
    // virtqueue are ended and counted out.
    method RequestsDoneWork()
      requires Valid()
      modifies this`inFlight, this`zero, this`queue, this`ended
      ensures Valid() && queue == [] && ended == old(ended) + old(queue) && inFlight == old(inFlight) - |old(queue)|
    {
      var reqs := queue;
      var k: nat := 0;
      while k < |reqs|
        invariant k <= |reqs| && ended == old(ended) + reqs[..k]
        invariant inFlight == old(inFlight) - k
        invariant inFlight >= |reqs| - k
      {
        assert reqs[..k + 1] == reqs[..k] + [reqs[k]];
        ended := ended + [reqs[k]];
        Dec();
        k := k + 1;
      }
      assert reqs[..k] == reqs;
      queue := [];
    }
  }
}
