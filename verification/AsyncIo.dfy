// Asynchronous direct I/O in file.c: a read or write is cut into contiguous requests that complete in any order.
module AsyncIo {
  import opened Basics

  // One request: its length and, once it has completed, whether it failed and how many bytes it transferred
  datatype Piece = Piece(len: nat, done: bool, failed: bool, got: nat)

  // Where piece k begins: pieces follow one another.
  function Offset(ps: seq<Piece>, k: nat): nat
    requires k <= |ps|
  {
    if k == 0 then 0 else Offset(ps, k - 1) + ps[k - 1].len
  }

  function Open(ps: seq<Piece>): nat {
    if ps == [] then 0 else Open(ps[..|ps| - 1]) + if ps[|ps| - 1].done then 0 else 1
  }

  predicate IsShort(p: Piece) { p.done && !p.failed && p.got != p.len }

  predicate Fits(ps: seq<Piece>) { forall k | 0 <= k < |ps| && ps[k].done && !ps[k].failed :: ps[k].got <= ps[k].len }

  // How much was transferred without a gap from the start
  function Prefix(ps: seq<Piece>): nat {
    if ps == [] then 0 else if ps[0].got == ps[0].len then ps[0].len + Prefix(ps[1..]) else ps[0].got
  }

  // bytes is the smallest end of a short piece, or -1 if there is none.
  ghost predicate BytesOk(ps: seq<Piece>, bytes: int) {
    && bytes >= -1
    && (forall k | 0 <= k < |ps| && IsShort(ps[k]) :: 0 <= bytes <= Offset(ps, k) + ps[k].got)
    && (bytes >= 0 ==> exists k | 0 <= k < |ps| && IsShort(ps[k]) :: bytes == Offset(ps, k) + ps[k].got)
  }

  ghost predicate ErrOk(ps: seq<Piece>, err: int, submitErr: int) {
    err != 0 <==> submitErr != 0 || exists k | 0 <= k < |ps| :: ps[k].done && ps[k].failed
  }

  lemma {:induction false} OpenStep(ps: seq<Piece>, k: nat, p: Piece)
    requires k < |ps| && !ps[k].done && p.done
    ensures Open(ps[k := p]) == Open(ps) - 1
  {
    if k == |ps| - 1 {
      assert ps[k := p][..k] == ps[..k];
    } else {
      assert ps[k := p][..|ps| - 1] == ps[..|ps| - 1][k := p];
      OpenStep(ps[..|ps| - 1], k, p);
    }
  }

  lemma {:induction false} OffsetKept(ps: seq<Piece>, ps': seq<Piece>, k: nat)
    requires k <= |ps| && k <= |ps'| && forall i | 0 <= i < k :: ps'[i].len == ps[i].len
    ensures Offset(ps', k) == Offset(ps, k)
  {
    if k > 0 {
      OffsetKept(ps, ps', k - 1);
    }
  }

  lemma {:induction false} OffsetGrows(ps: seq<Piece>, j: nat, k: nat)
    requires j < k <= |ps|
    ensures Offset(ps, j) + ps[j].len <= Offset(ps, k)
  {
    if j < k - 1 {
      OffsetGrows(ps, j, k - 1);
    }
  }

  lemma {:induction false} AllDone(ps: seq<Piece>, k: nat)
    requires Open(ps) == 0 && k < |ps|
    ensures ps[k].done
  {
    if k < |ps| - 1 {
      AllDone(ps[..|ps| - 1], k);
    }
  }

  // The transferred prefix ends at the first short piece, or at the end.
  lemma {:induction false} PrefixFrom(ps: seq<Piece>, k: nat)
    requires k <= |ps| && forall i | 0 <= i < k :: ps[i].got == ps[i].len
    ensures Prefix(ps) == Offset(ps, k) + Prefix(ps[k..])
  {
    if k == 0 {
      assert ps[0..] == ps;
    } else {
      PrefixFrom(ps, k - 1);
      assert ps[k - 1..][1..] == ps[k..];
    }
  }

  // Without errors, once every piece has completed, the smallest short end is the end of the prefix.
  lemma SmallestIsPrefix(ps: seq<Piece>, bytes: int, first: nat)
    requires BytesOk(ps, bytes) && Fits(ps) && Open(ps) == 0 && first <= |ps|
    requires (forall i | 0 <= i < |ps| :: !ps[i].failed) && (forall i | 0 <= i < first :: ps[i].got == ps[i].len)
    requires first < |ps| ==> ps[first].got != ps[first].len
    ensures if first == |ps| then bytes == -1 && Prefix(ps) == Offset(ps, |ps|) else bytes == Prefix(ps)
  {
    PrefixFrom(ps, first);
    if first < |ps| {
      AllDone(ps, first);
      assert IsShort(ps[first]);
      var k :| 0 <= k < |ps| && IsShort(ps[k]) && bytes == Offset(ps, k) + ps[k].got;
      if first < k {
        OffsetGrows(ps, first, k);
      }
    }
  }

  lemma FirstShort(ps: seq<Piece>) returns (first: nat)
    ensures first <= |ps| && (forall i | 0 <= i < first :: ps[i].got == ps[i].len)
    ensures first < |ps| ==> ps[first].got != ps[first].len
  {
    first := 0;
    while first < |ps| && ps[first].got == ps[first].len
      invariant first <= |ps| && forall i | 0 <= i < first :: ps[i].got == ps[i].len
    {
      first := first + 1;
    }
  }

  // struct fuse_io_priv.  Whoever completes a piece, and the submitter at the end, first gives up its share of reqs
  // under io->lock, then reports the result if it was the last of a non-blocking request, and then drops its reference;
  // others may come in between.
  class IoPriv {
    const write: bool
    const blocking: bool
    var reqs: nat
    var bytes: int
    var size: nat
    var err: int
    var refcnt: nat
    var signals: nat                  // how often the result has been announced: complete() or ki_complete()
    ghost var pieces: seq<Piece>
    ghost var submitting: bool        // fuse_direct_IO has not yet given up its share of reqs
    ghost var waiter: bool            // a blocking fuse_direct_IO still has its own reference
    ghost var completing: nat         // how many have given up their share of reqs and not yet their reference
    ghost var reporting: bool         // one of them was the last of a non-blocking request and has yet to report
    ghost var submitErr: int

    ghost predicate Valid()
      reads this
    {
      && reqs == Open(pieces) + (if submitting then 1 else 0)
      && refcnt == reqs + completing + (if waiter then 1 else 0)
      && size == Offset(pieces, |pieces|) && BytesOk(pieces, bytes) && (write ==> Fits(pieces))
      && ErrOk(pieces, err, submitErr)
      && signals == (if reqs == 0 && !reporting then 1 else 0)
      && (reporting ==> !blocking && reqs == 0 && completing > 0)
      && (waiter ==> blocking)
      && (submitting ==> submitErr == 0)
    }

    // What fuse_get_res_by_io has to return: an error if there was one; a write is all or nothing; a read the longest
    // prefix that was transferred without a gap, whatever the order of completion, if no request reports more than it
    // asked for (a reply that long is rejected by copy_out_args).
    ghost predicate IsResult(res: int)
      reads this
    {
      && (submitErr != 0 || (exists k | 0 <= k < |pieces| :: pieces[k].failed) ==> res == err != 0)
      && (submitErr == 0 && (forall k | 0 <= k < |pieces| :: !pieces[k].failed) ==>
            if !write then Fits(pieces) ==> res == Prefix(pieces)
            else if forall k | 0 <= k < |pieces| :: pieces[k].got == pieces[k].len then res == size
            else res == -EIO)
    }

    // The preparation in fuse_direct_IO of an asynchronous request
    constructor (write: bool, blocking: bool)
      ensures Valid() && pieces == [] && submitting && waiter == blocking && submitErr == 0 && completing == 0
      ensures this.write == write && this.blocking == blocking
    {
      this.write, this.blocking := write, blocking;
      reqs, bytes, size, err, signals := 1, -1, 0, 0, 0;
      refcnt := if blocking then 2 else 1;
      pieces, submitting, waiter, submitErr, completing, reporting := [], true, blocking, 0, 0, false;
    }

    // fuse_async_req_send, under io->lock
    method Send(numBytes: nat)
      requires Valid() && submitting
      modifies this`reqs, this`size, this`refcnt, this`pieces
      ensures Valid() && pieces == old(pieces) + [Piece(numBytes, false, false, 0)] && Fits(pieces) == old(Fits(pieces))
    {
      ghost var ps := pieces;
      refcnt := refcnt + 1;
      size := size + numBytes;
      reqs := reqs + 1;
      pieces := pieces + [Piece(numBytes, false, false, 0)];
      assert pieces[..|ps|] == ps;
      SendKeeps(ps, Piece(numBytes, false, false, 0), bytes, err, submitErr);
    }

    // The part of fuse_aio_complete under io->lock
    method AioComplete(error: int, pos: int) returns (left: nat)
      requires reqs > 0
      modifies this`err, this`bytes, this`reqs, this`signals, this`completing, this`reporting
      ensures err == (if error != 0 && old(err) == 0 then error else old(err))
      ensures bytes == if error == 0 && pos >= 0 && (old(bytes) < 0 || pos < old(bytes)) then pos else old(bytes)
      ensures left == reqs == old(reqs) - 1 && completing == old(completing) + 1
      ensures signals == old(signals) + (if reqs == 0 && blocking then 1 else 0)
      ensures reporting == (old(reporting) || (reqs == 0 && !blocking))
    {
      if error != 0 {
        err := if err != 0 then err else error;
      } else if pos >= 0 && (bytes < 0 || pos < bytes) {
        bytes := pos;
      }
      reqs := reqs - 1;
      left := reqs;
      if left == 0 && blocking {
        signals := signals + 1;
      }
      completing := completing + 1;
      reporting := reporting || (left == 0 && !blocking);
    }

    // fuse_aio_complete_req for piece k, of which out bytes were transferred, up to the end of the locked section
    method AioCompleteReq(ghost k: nat, offset: nat, len: nat, error: int, out: nat) returns (left: nat)
      requires Valid() && k < |pieces| && !pieces[k].done && len == pieces[k].len && offset == Offset(pieces, k)
      modifies this`err, this`bytes, this`reqs, this`signals, this`completing, this`reporting, this`pieces
      ensures Valid() && left == reqs && completing == old(completing) + 1
      ensures pieces == old(pieces)[k := Piece(len, true, error != 0 || (write && out > len), out)]
      ensures Fits(pieces) <==> old(Fits(pieces)) && (write || error != 0 || out <= len)
    {
      var e, pos := error, -1;
      if error != 0 {
      } else if write {
        if out > len {
          e := -EIO;
        } else if len != out {
          pos := offset + out;
        }
      } else {
        if len != out {
          pos := offset + out;
        }
      }
      CompleteKeeps(pieces, k, Piece(len, true, e != 0, out), bytes, err, e, pos, submitErr);
      OpenStep(pieces, k, Piece(len, true, e != 0, out));
      left := AioComplete(e, pos);
      pieces := pieces[k := Piece(len, true, e != 0, out)];
    }

    // The submitter's own share, at the end of fuse_direct_IO
    method SubmitDone(ret: int) returns (left: nat)
      requires Valid() && submitting
      modifies this`err, this`bytes, this`reqs, this`signals, this`completing, this`reporting, this`submitting,
        this`submitErr
      ensures Valid() && !submitting && pieces == old(pieces) && submitErr == (if ret < 0 then ret else 0)
      ensures left == reqs && completing == old(completing) + 1
    {
      left := AioComplete(if ret < 0 then ret else 0, -1);
      submitting := false;
      submitErr := if ret < 0 then ret else 0;
    }

    // fuse_get_res_by_io, called by the completer that reports or by the waiter: either still has a reference.
    method GetRes() returns (res: int)
      requires Valid() && reqs == 0 && (reporting || waiter)
      ensures IsResult(res) && refcnt > 0
    {
      forall k | 0 <= k < |pieces| ensures pieces[k].done {
        AllDone(pieces, k);
      }
      if submitErr == 0 && Fits(pieces) && forall k | 0 <= k < |pieces| :: !pieces[k].failed {
        var first := FirstShort(pieces);
        SmallestIsPrefix(pieces, bytes, first);
      }
      if err != 0 {
        return err;
      }
      if bytes >= 0 && write {
        return -EIO;
      }
      res := if bytes < 0 then size else bytes;
    }

    // The last completer of a non-blocking request reports the result, without io->lock.
    method Report() returns (res: int)
      requires Valid() && reporting
      modifies this`signals, this`reporting
      ensures Valid() && !reporting && signals == 1 && IsResult(res) && refcnt > 0
    {
      res := GetRes();
      signals := signals + 1;
      reporting := false;
    }

    // kref_put at the end of fuse_aio_complete, by a completer that has nothing to report any more: the structure is
    // freed exactly if everyone else is gone.
    method Put() returns (freed: bool)
      requires Valid() && completing > (if reporting then 1 else 0)
      modifies this`refcnt, this`completing
      ensures Valid() && completing == old(completing) - 1 && (freed <==> refcnt == 0)
      ensures freed <==> !submitting && Open(pieces) == 0 && completing == 0 && !waiter
    {
      refcnt := refcnt - 1;
      completing := completing - 1;
      freed := refcnt == 0;
    }

    // A blocking submitter, woken by the signal, takes the result and drops its reference; completers that have yet to
    // drop theirs keep the structure alive.
    method WaitDone() returns (res: int, freed: bool)
      requires Valid() && waiter && signals == 1
      modifies this`refcnt, this`waiter
      ensures Valid() && !waiter && refcnt == completing && IsResult(res) && (freed <==> completing == 0)
    {
      res := GetRes();
      refcnt := refcnt - 1;
      waiter := false;
      freed := refcnt == 0;
    }

    // The result is announced once, after the last piece; references go exactly with their holders, so that the
    // structure is freed only after that, and by the last of them.
    lemma OnceAtEnd()
      requires Valid()
      ensures signals <= 1 && (signals == 1 <==> !submitting && Open(pieces) == 0 && !reporting)
      ensures refcnt == 0 <==> !submitting && Open(pieces) == 0 && completing == 0 && !waiter
      ensures refcnt == 0 ==> signals == 1
    {
    }
  }

  // The window that makes the reference of a completer necessary: the waiter is done before the completer that woke it
  // has dropped its own.
  method WaiterFirst() returns (io: IoPriv)
    ensures io.Valid() && io.blocking && io.signals == 1 && !io.waiter && io.refcnt == 1 == io.completing
  {
    io := new IoPriv(false, true);
    var left := io.SubmitDone(0);
    assert io.reqs == 0;
    var res, freed := io.WaitDone();
  }

  lemma FitsMore(ps: seq<Piece>, p: Piece)
    requires !p.done
    ensures Fits(ps + [p]) == Fits(ps)
  {
    assert forall k | 0 <= k < |ps| :: (ps + [p])[k] == ps[k];
  }

  lemma FitsWith(ps: seq<Piece>, k: nat, p: Piece)
    requires k < |ps| && !ps[k].done && p.done
    ensures Fits(ps[k := p]) <==> Fits(ps) && (p.failed || p.got <= p.len)
  {
    var ps' := ps[k := p];
    assert ps'[k] == p && forall i | 0 <= i < |ps| && i != k :: ps'[i] == ps[i];
  }

  lemma SendKeeps(ps: seq<Piece>, p: Piece, bytes: int, err: int, submitErr: int)
    requires BytesOk(ps, bytes) && ErrOk(ps, err, submitErr) && !p.done
    ensures BytesOk(ps + [p], bytes) && Fits(ps + [p]) == Fits(ps) && ErrOk(ps + [p], err, submitErr)
    ensures Offset(ps + [p], |ps| + 1) == Offset(ps, |ps|) + p.len
  {
    forall k | 0 <= k <= |ps| ensures Offset(ps + [p], k) == Offset(ps, k) {
      OffsetKept(ps, ps + [p], k);
    }
    FitsMore(ps, p);
    if bytes >= 0 {
      var k :| 0 <= k < |ps| && IsShort(ps[k]) && bytes == Offset(ps, k) + ps[k].got;
      assert IsShort((ps + [p])[k]);
    }
    if k :| 0 <= k < |ps| && ps[k].done && ps[k].failed {
      assert (ps + [p])[k].done && (ps + [p])[k].failed;
    }
  }

  lemma CompleteKeeps(ps: seq<Piece>, k: nat, p: Piece, bytes: int, err: int, e: int, pos: int, submitErr: int)
    requires BytesOk(ps, bytes) && ErrOk(ps, err, submitErr) && k < |ps| && !ps[k].done
    requires p.done && p.len == ps[k].len && p.failed == (e != 0)
    requires e == 0 ==> pos == if IsShort(p) then Offset(ps, k) + p.got else -1
    ensures var bytes' := if e == 0 && pos >= 0 && (bytes < 0 || pos < bytes) then pos else bytes;
            var err' := if e != 0 && err == 0 then e else err;
            var ps' := ps[k := p];
            BytesOk(ps', bytes') && ErrOk(ps', err', submitErr) && Offset(ps', |ps|) == Offset(ps, |ps|)
    ensures Fits(ps[k := p]) <==> Fits(ps) && (p.failed || p.got <= p.len)
  {
    var ps' := ps[k := p];
    FitsWith(ps, k, p);
    forall i | 0 <= i <= |ps| ensures Offset(ps', i) == Offset(ps, i) {
      OffsetKept(ps, ps', i);
    }
    if bytes >= 0 {
      var i :| 0 <= i < |ps| && IsShort(ps[i]) && bytes == Offset(ps, i) + ps[i].got;
      assert IsShort(ps'[i]) && bytes == Offset(ps', i) + ps'[i].got;
    }
    if e == 0 && pos >= 0 {
      assert IsShort(ps'[k]) && pos == Offset(ps', k) + ps'[k].got;
    }
    if i :| 0 <= i < |ps| && ps[i].done && ps[i].failed {
      assert ps'[i].done && ps'[i].failed;
    }
    if e != 0 {
      assert ps'[k].done && ps'[k].failed;
    }
    if i :| 0 <= i < |ps| && ps'[i].done && ps'[i].failed {
      assert i != k ==> ps[i].done && ps[i].failed;
    }
  }
}
