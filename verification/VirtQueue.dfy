// How virtio_fs.c counts the requests that a virtqueue has in flight, and what draining it guarantees.
module VirtQueue {
  import opened Counting

  type Rid = nat

  // What virtqueue_add_sgs or the preparation before it returns: success, -ENOMEM or -ENOSPC, or another error
  datatype Result = Sent | Full | Failed

  // Where a request or forget is.  Submitter: in virtio_fs_wake_pending_and_unlock, before virtio_fs_enqueue_req;
  // TurnedAway: there, after it could not be sent; Retried: with the dispatch worker, before sending it again; Refused:
  // there, after that failed; Collected: taken off the virtqueue and not yet completed; Ending: on end_reqs.
  datatype Place =
    | Submitter | TurnedAway(full: bool) | OnQueue | RetryList | Retried | Refused(again: bool) | Collected | Ending

  // What in_flight counts
  predicate Counted(p: Place) { p.OnQueue? || p.RetryList? || p.Retried? || p.Refused? || p.Collected? }

  // A drain that has started waits until in_flight_zero is completed.
  datatype Drain = NoDrain | Draining | Drained

  // struct virtio_fs_vq; zero: in_flight_zero has been completed since the drain began
  datatype State = State(at: map<Rid, Place>, inFlight: int, connected: bool, drain: Drain, zero: bool)

  datatype Step =
    | Submit(r: Rid) | Enqueue(r: Rid, res: Result) | HandBack(r: Rid)            // submitting a request
    | TakeEnding(r: Rid) | TakeRetry(r: Rid) | Resend(r: Rid, res: Result) | AfterResend(r: Rid)   // dispatch worker
    | Collect(r: Rid) | Complete(r: Rid)                                          // completion
    | SendForget(r: Rid, res: Result) | ResendForget(r: Rid, res: Result) | ForgetDone(r: Rid)
    | Stop | Start | BeginDrain | EndDrain

  predicate Can(s: State, a: Step) {
    match a
    case Submit(r) => r !in s.at
    case Enqueue(r, _) => r in s.at && s.at[r].Submitter?
    case HandBack(r) => r in s.at && s.at[r].TurnedAway?
    case TakeEnding(r) => r in s.at && s.at[r].Ending?
    case TakeRetry(r) => r in s.at && s.at[r].RetryList?
    case Resend(r, _) => r in s.at && s.at[r].Retried?
    case AfterResend(r) => r in s.at && s.at[r].Refused?
    case Collect(r) => r in s.at && s.at[r].OnQueue?
    case Complete(r) => r in s.at && s.at[r].Collected?
    case SendForget(r, _) => r !in s.at
    case ResendForget(r, _) => r in s.at && s.at[r].Retried?
    case ForgetDone(r) => r in s.at && s.at[r].OnQueue?
    case Stop => true
    case Start => true
    case BeginDrain => !s.drain.Draining?
    case EndDrain => s.drain.Draining? && s.zero
  }

  function Inc(s: State): State { s.(inFlight := s.inFlight + 1) }

  // dec_in_flight_req
  function Dec(s: State): State { s.(inFlight := s.inFlight - 1, zero := s.zero || s.inFlight - 1 == 0) }

  function Put(s: State, r: Rid, p: Place): State { s.(at := s.at[r := p]) }

  function Gone(s: State, r: Rid): State { s.(at := s.at - {r}) }

  function Next(s: State, a: Step): State
    requires Can(s, a)
  {
    match a
    case Submit(r) => Put(s, r, Submitter)
    // virtio_fs_enqueue_req by the submitter, 1177-1205
    case Enqueue(r, res) =>
      if res.Sent? && s.connected then Inc(Put(s, r, OnQueue)) else Put(s, r, TurnedAway(res.Full?))
    // virtio_fs_wake_pending_and_unlock, 1247-1271
    case HandBack(r) => if s.at[r].full then Inc(Put(s, r, RetryList)) else Put(s, r, Ending)
    // virtio_fs_request_dispatch_work
    case TakeEnding(r) => Gone(s, r)
    case TakeRetry(r) => Put(s, r, Retried)
    case Resend(r, res) => if res.Sent? && s.connected then Put(s, r, OnQueue) else Put(s, r, Refused(res.Full?))
    case AfterResend(r) => if s.at[r].again then Put(s, r, RetryList) else Dec(Gone(s, r))
    // virtio_fs_requests_done_work and virtio_fs_request_complete
    case Collect(r) => Put(s, r, Collected)
    case Complete(r) => Dec(Gone(s, r))
    // send_forget_request without and with in_flight, and virtio_fs_hiprio_done_work
    case SendForget(r, res) =>
      if !s.connected || res.Failed? then s
      else if res.Full? then Inc(Put(s, r, RetryList)) else Inc(Put(s, r, OnQueue))
    case ResendForget(r, res) =>
      if !s.connected || res.Failed? then Dec(Gone(s, r))
      else if res.Full? then Put(s, r, RetryList) else Put(s, r, OnQueue)
    case ForgetDone(r) => Dec(Gone(s, r))
    case Stop => s.(connected := false)
    case Start => s.(connected := true)
    // virtio_fs_drain_queue
    case BeginDrain => if s.inFlight != 0 then s.(drain := Draining, zero := false) else s.(drain := Drained)
    case EndDrain => s.(drain := Drained)
  }

  predicate Init(s: State) { s.at == map[] && s.inFlight == 0 && s.drain.NoDrain? && !s.zero }

  // ------------------------------------------------ the count

  ghost function InFlight(at: map<Rid, Place>): set<Rid> { Where(at, Counted) }

  ghost predicate Inv(s: State) { s.inFlight == |InFlight(s.at)| }

  lemma PutStep(at: map<Rid, Place>, r: Rid, p: Place)
    ensures |InFlight(at[r := p])| == |InFlight(at)| - B(r in at && Counted(at[r])) + B(Counted(p))
    ensures r in at && Counted(at[r]) ==> |InFlight(at)| >= 1
  {
    WhereStep(at, Counted, r, p);
  }

  lemma GoneStep(at: map<Rid, Place>, r: Rid)
    requires r in at
    ensures |InFlight(at - {r})| == |InFlight(at)| - B(Counted(at[r]))
  {
    WhereMinus(at, Counted, r);
  }

  lemma StepKeeps(s: State, a: Step)
    requires Inv(s) && Can(s, a)
    ensures Inv(Next(s, a))
  {
    if !(a.Stop? || a.Start? || a.BeginDrain? || a.EndDrain?) {
      var r, s' := a.r, Next(s, a);
      if r in s'.at {
        PutStep(s.at, r, s'.at[r]);
        assert s'.at == s.at[r := s'.at[r]];
      } else if r in s.at {
        GoneStep(s.at, r);
      }
    }
  }

  ghost predicate Run(ss: seq<State>, steps: seq<Step>) {
    && |ss| == |steps| + 1 && Init(ss[0])
    && forall i | 0 <= i < |steps| :: Can(ss[i], steps[i]) && ss[i + 1] == Next(ss[i], steps[i])
  }

  lemma {:induction false} RunKeeps(ss: seq<State>, steps: seq<Step>, i: nat)
    requires Run(ss, steps) && i < |ss|
    ensures Inv(ss[i])
  {
    if i == 0 {
      assert InFlight(ss[0].at) == {};
    } else {
      RunKeeps(ss, steps, i - 1);
      StepKeeps(ss[i - 1], steps[i - 1]);
    }
  }

  // in_flight is always the number of requests on the virtqueue, on the retry list, or with a worker; it is never
  // negative, and a request is only counted out where it was counted: the warning is not reached.
  lemma InFlightExact(ss: seq<State>, steps: seq<Step>, i: nat)
    requires Run(ss, steps) && i < |ss|
    ensures ss[i].inFlight == |InFlight(ss[i].at)| >= 0
    ensures i < |steps| && ss[i + 1].inFlight < ss[i].inFlight ==> ss[i].inFlight > 0
  {
    RunKeeps(ss, steps, i);
    if i < |steps| {
      RunKeeps(ss, steps, i + 1);
    }
  }

  // At zero none is left on the virtqueue, the retry list, or with a worker.
  lemma ZeroMeansNone(ss: seq<State>, steps: seq<Step>, i: nat, r: Rid)
    requires Run(ss, steps) && i < |ss| && ss[i].inFlight == 0 && r in ss[i].at
    ensures !Counted(ss[i].at[r])
  {
    RunKeeps(ss, steps, i);
    assert r !in InFlight(ss[i].at);
  }

  // ------------------------------------------------ draining

  // A stopped queue with no submitter that has found it full and has not put its request on the retry list yet
  ghost predicate Quiet(s: State) {
    !s.connected && forall r | r in s.at :: s.at[r] != TurnedAway(true) && !s.at[r].Submitter?
  }

  // Nothing new is counted on it, as long as no new request is submitted.
  lemma QuietStays(s: State, a: Step)
    requires Quiet(s) && Can(s, a) && !a.Start? && !a.Submit?
    ensures Quiet(Next(s, a)) && Next(s, a).inFlight <= s.inFlight
  {
  }

  predicate Calm(a: Step) { !a.Start? && !a.Submit? }

  // A drain that is in progress has seen in_flight at zero exactly if it is zero, on a quiet queue.
  ghost predicate DrainOk(s: State) {
    Quiet(s) && s.inFlight >= 0 && (s.drain.Draining? ==> (s.zero ==> s.inFlight == 0))
      && (s.drain.Drained? ==> s.inFlight == 0)
  }

  lemma DrainStep(s: State, a: Step)
    requires Inv(s) && DrainOk(s) && Can(s, a) && Calm(a)
    ensures DrainOk(Next(s, a))
  {
    StepKeeps(s, a);
    QuietStays(s, a);
  }

  lemma {:induction false} DrainRun(ss: seq<State>, steps: seq<Step>, i: nat, j: nat)
    requires Run(ss, steps) && i <= j < |ss| && DrainOk(ss[i]) && forall k | i <= k < j :: Calm(steps[k])
    ensures DrainOk(ss[j])
  {
    if i < j {
      DrainRun(ss, steps, i, j - 1);
      RunKeeps(ss, steps, j - 1);
      DrainStep(ss[j - 1], steps[j - 1]);
    }
  }

  // Once a drain that began on a quiet queue has finished, no request is left on the virtqueue, on the retry list, or
  // with a worker, and none comes back.
  lemma DrainedMeansNone(ss: seq<State>, steps: seq<Step>, i: nat, j: nat, r: Rid)
    requires Run(ss, steps) && i < j < |ss| && Quiet(ss[i]) && steps[i].BeginDrain?
    requires (forall k | i <= k < j :: Calm(steps[k])) && ss[j].drain.Drained? && r in ss[j].at
    ensures !Counted(ss[j].at[r])
  {
    RunKeeps(ss, steps, i);
    DrainRun(ss, steps, i + 1, j);
    ZeroMeansNone(ss, steps, j, r);
  }

  // On a stopped queue with nothing in flight exactly one kind of step brings something back: a submitter that was
  // turned away by a full queue puts its request on the retry list.
  lemma OnlyLateRetry(s: State, a: Step)
    requires Can(s, a) && !s.connected && s.inFlight == 0 && !a.Start?
    ensures Next(s, a).inFlight > 0 <==> a.HandBack? && s.at[a.r].full
  {
    match a
    case Enqueue(r, res) => assert Next(s, a).inFlight == 0;
    case SendForget(r, res) => assert Next(s, a) == s;
    case _ =>
  }

  // Steps from any state
  ghost predicate Path(ss: seq<State>, steps: seq<Step>) {
    && |ss| == |steps| + 1
    && forall i | 0 <= i < |steps| :: Can(ss[i], steps[i]) && ss[i + 1] == Next(ss[i], steps[i])
  }

  lemma {:induction false} QuietPath(ss: seq<State>, steps: seq<Step>, i: nat)
    requires Path(ss, steps) && Inv(ss[0]) && Quiet(ss[0]) && ss[0].inFlight == 0 && i < |ss|
      && forall a | a in steps :: Calm(a)
    ensures Inv(ss[i]) && Quiet(ss[i]) && ss[i].inFlight == 0
  {
    if i > 0 {
      QuietPath(ss, steps, i - 1);
      assert steps[i - 1] in steps;
      StepKeeps(ss[i - 1], steps[i - 1]);
      QuietStays(ss[i - 1], steps[i - 1]);
    }
  }

  // The steps with which a submitter that is still to come back counts its request
  function LateSteps(s: State, r: Rid): seq<Step>
    requires r in s.at
  {
    if s.at[r].Submitter? then [Enqueue(r, Full), HandBack(r)] else [HandBack(r)]
  }

  lemma ComesBack(s: State, r: Rid) returns (ss: seq<State>)
    requires !s.connected && r in s.at && (s.at[r].Submitter? || s.at[r] == TurnedAway(true))
    ensures Path(ss, LateSteps(s, r)) && ss[0] == s && ss[|ss| - 1].inFlight == s.inFlight + 1
  {
    var steps := LateSteps(s, r);
    if s.at[r].Submitter? {
      var s1 := Next(s, steps[0]);
      ss := [s, s1, Next(s1, steps[1])];
    } else {
      ss := [s, Next(s, steps[0])];
    }
  }

  // A stopped queue with nothing in flight stays so, whatever happens short of a start or a new request, exactly if it
  // is quiet: draining is enough if and only if no submitter is on its way back.
  lemma EmptyForGood(s: State)
    requires Inv(s) && !s.connected && s.inFlight == 0
    ensures (forall ss: seq<State>, steps: seq<Step> | Path(ss, steps) && ss[0] == s
             && (forall a | a in steps :: Calm(a)) ::
               ss[|ss| - 1].inFlight == 0) <==>
            Quiet(s)
  {
    if Quiet(s) {
      forall ss: seq<State>, steps: seq<Step> | Path(ss, steps) && ss[0] == s && (forall a | a in steps :: Calm(a))
        ensures ss[|ss| - 1].inFlight == 0
      {
        QuietPath(ss, steps, |ss| - 1);
      }
    } else {
      var r :| r in s.at && (s.at[r].Submitter? || s.at[r] == TurnedAway(true));
      var ss := ComesBack(s, r);
      assert Path(ss, LateSteps(s, r)) && ss[|ss| - 1].inFlight != 0;
    }
  }

  // Quiet is needed: a submitter that found the queue full while it was connected is not counted yet.  Here the queue
  // is stopped and drained, with nothing in flight, before the submitter puts its request on the retry list.
  lemma LateRetry() returns (ss: seq<State>, steps: seq<Step>)
    ensures Run(ss, steps) && |ss| == 6 && ss[4].drain.Drained? && !ss[4].connected && ss[4].inFlight == 0
    ensures ss[5].drain.Drained? && 0 in ss[5].at && ss[5].at[0].RetryList? && ss[5].inFlight == 1
  {
    var s0 := State(map[], 0, true, NoDrain, false);
    steps := [Submit(0), Enqueue(0, Full), Stop, BeginDrain, HandBack(0)];
    var s1 := Next(s0, steps[0]);
    var s2 := Next(s1, steps[1]);
    var s3 := Next(s2, steps[2]);
    var s4 := Next(s3, steps[3]);
    var s5 := Next(s4, steps[4]);
    ss := [s0, s1, s2, s3, s4, s5];
  }
}
