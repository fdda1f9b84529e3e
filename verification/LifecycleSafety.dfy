// What holds in every state of every run of RequestLifecycle.
module LifecycleSafety {
  import opened Counting
  import opened RequestLifecycle
  import opened LifecycleInvariant
  import opened LifecycleKeeps
  import opened LifecycleWide
  import opened LifecycleAbort

  datatype Step = Step(t: Tid, a: Action)

  // A run: an initial state, then one step of some thread after another
  ghost predicate Run(ss: seq<State>, steps: seq<Step>) {
    && |ss| == |steps| + 1 && Init(ss[0])
    && forall i | 0 <= i < |steps| ::
      Can(ss[i], steps[i].t, steps[i].a) && ss[i + 1] == Next(ss[i], steps[i].t, steps[i].a)
  }

  lemma InitKeeps(s: State)
    requires Init(s)
    ensures Inv(s)
  {
    assert Where(s.reqs, IsWaiting) == {} && Where(s.reqs, IsActive) == {} && Where(s.reqs, IsBgQueued) == {};
    assert Getters(s.threads) == {};
  }

  lemma StepKeeps(s: State, t: Tid, a: Action)
    requires Inv(s) && Can(s, t, a)
    ensures Inv(Next(s, t, a))
  {
    match a
    case OnReq(r, x) => LocalKeeps(s, t, r, x);
    case OnConn(x) => ConnKeeps(s, t, x);
    case OnMany(x) => WideKeeps(s, t, x);
  }

  lemma {:induction false} RunKeeps(ss: seq<State>, steps: seq<Step>, i: nat)
    requires Run(ss, steps) && i < |ss|
    ensures Inv(ss[i])
  {
    if i == 0 {
      InitKeeps(ss[0]);
    } else {
      RunKeeps(ss, steps, i - 1);
      StepKeeps(ss[i - 1], steps[i - 1].t, steps[i - 1].a);
    }
  }

  lemma RunReq(ss: seq<State>, steps: seq<Step>, i: nat, r: Rid)
    requires Run(ss, steps) && i < |ss| && r in ss[i].reqs
    ensures ReqInv(ss[i].reqs[r], r, ss[i].threads, ss[i].conn) && Counted(ss[i].reqs[r], r, ss[i].threads)
  {
    RunKeeps(ss, steps, i);
  }

  lemma RunThread(ss: seq<State>, steps: seq<Step>, i: nat, t: Tid)
    requires Run(ss, steps) && i < |ss|
    ensures ThreadInv(t, At(ss[i].threads, t), ss[i].reqs, ss[i].conn)
  {
    RunKeeps(ss, steps, i);
    GetThread(ss[i], t);
  }

  lemma RunAbort(ss: seq<State>, steps: seq<Step>, i: nat)
    requires Run(ss, steps) && i < |ss|
    ensures AbortInv(ss[i].conn)
  {
    RunKeeps(ss, steps, i);
  }

  // ------------------------------------------------ references and lists

  // The reference count of a request is the number of its holders: the threads that work on it and have not yet
  // dropped their reference, and the list that owns one.
  lemma RefsExact(ss: seq<State>, steps: seq<Step>, i: nat, r: Rid)
    requires Run(ss, steps) && i < |ss| && r in ss[i].reqs
    ensures var q := ss[i].reqs[r]; q.count == ListRef(q.list) + |Holders(ss[i].threads, r)|
  {
    RunReq(ss, steps, i, r);
  }

  // A thread works only on requests that exist: none has been freed under it.
  lemma NoUseAfterFree(ss: seq<State>, steps: seq<Step>, i: nat, t: Tid)
    requires Run(ss, steps) && i < |ss| && At(ss[i].threads, t).On?
    ensures At(ss[i].threads, t).r in ss[i].reqs
  {
    RunThread(ss, steps, i, t);
  }

  // A request about to be freed is on no list, nobody else works on it, no counter counts it; it has been
  // completed if it ever left bg_queue, and its end callback has then run.
  lemma FreedClean(ss: seq<State>, steps: seq<Step>, i: nat, t: Tid, r: Rid, k: Then, u: Tid)
    requires Run(ss, steps) && i < |ss| && At(ss[i].threads, t) == On(r, Putting(FreeReq, k)) && r in ss[i].reqs
    ensures var q := ss[i].reqs[r];
            && q.list.NoList? && !q.onIntr && !q.f.waiting && !IsActive(q)
            && (q.f.finished && q.f.async ==> q.h.callbacks == 1)
            && (u != t ==> !(At(ss[i].threads, u).On? && At(ss[i].threads, u).r == r))
  {
    var s := ss[i];
    RunKeeps(ss, steps, i);
    GetReady(s, t, r);
    GetThread(s, u);
    FreedFlags(s, t, r, k);
    assert Counted(s.reqs[r], r, s.threads);
    if u != t && u in s.threads {
      FreedAlone(s, t, u, r);
    }
  }

  lemma FreedFlags(s: State, t: Tid, r: Rid, k: Then)
    requires Inv(s) && At(s.threads, t) == On(r, Putting(FreeReq, k)) && r in s.reqs
    ensures var q := s.reqs[r];
            q.list.NoList? && !q.onIntr && !q.f.waiting && !IsActive(q)
              && (q.f.finished && q.f.async ==> q.h.callbacks == 1)
  {
    var q := s.reqs[r];
    GetReady(s, t, r);
    assert Counted(q, r, s.threads);
    Unused(q, r, s.threads, s.conn);
    if q.h.completer.Thread? {
      HoldersStep(s.threads, q.h.completer.id, At(s.threads, q.h.completer.id), r);
    }
  }

  // ------------------------------------------------ completion

  // FR_FINISHED is set at most once, the end callback of an asynchronous request runs at most once and never before
  // that, and while it has not run the completing thread is on its way to it.
  lemma CompletedOnce(ss: seq<State>, steps: seq<Step>, i: nat, r: Rid)
    requires Run(ss, steps) && i < |ss| && r in ss[i].reqs
    ensures var q, ths := ss[i].reqs[r], ss[i].threads;
            && q.h.completions == (if q.f.finished then 1 else 0)
            && q.h.callbacks <= q.h.completions
            && (q.f.async && q.f.finished && q.h.callbacks == 0 ==>
                  q.h.completer.Thread? && Completing(At(ths, q.h.completer.id), r))
  {
    RunReq(ss, steps, i, r);
  }

  lemma EndingFlags(t: Tid, q: Req, r: Rid, e: EndPoint, k: Then, ths: map<Tid, Pc>, devs: map<Did, Dev>)
    requires StageOk(t, Ending(e, k), q, devs) && Flagged(q, r, ths)
    ensures !q.f.pending && !q.f.sent
  {
  }

  // The two warnings at the head of fuse_request_end are never reached.
  lemma EndsUnqueued(ss: seq<State>, steps: seq<Step>, i: nat, t: Tid, r: Rid, e: EndPoint, k: Then)
    requires Run(ss, steps) && i < |ss| && At(ss[i].threads, t) == On(r, Ending(e, k)) && !e.EndFlush?
    ensures r in ss[i].reqs && !ss[i].reqs[r].f.pending && !ss[i].reqs[r].f.sent
  {
    RunThread(ss, steps, i, t);
    RunReq(ss, steps, i, r);
    EndingFlags(t, ss[i].reqs[r], r, e, k, ss[i].threads, ss[i].conn.devs);
  }

  // An unfinished request that has left the input queues is waiting for its reply, or on the to_end list of a thread
  // that will end it, or carried by a thread that will end it or queue it again.
  lemma SomeoneCompletes(ss: seq<State>, steps: seq<Step>, i: nat, r: Rid)
    requires Run(ss, steps) && i < |ss| && r in ss[i].reqs && !ss[i].reqs[r].f.finished && !ss[i].reqs[r].f.pending
    ensures var q, ths := ss[i].reqs[r], ss[i].threads;
            || q.list.Processing?
            || (q.list.ToEnd? && EndsRequests(At(ths, q.list.ender)))
            || (q.h.carrier.Thread? && Carrying(At(ths, q.h.carrier.id), r))
  {
    RunReq(ss, steps, i, r);
  }

  lemma CopyingFlags(t: Tid, q: Req, r: Rid, d: Did, write: bool, holding: bool, ths: map<Tid, Pc>, devs: map<Did, Dev>)
    requires StageOk(t, Copy(d, write, holding), q, devs) && Flagged(q, r, ths) && Listed(q, r, ths, devs)
    ensures holding ==> q.list.Io? && q.list.dev == d && !q.f.finished && !q.f.priv
    ensures q.f.finished ==> q.f.aborted
  {
  }

  // While a device thread has locked a request, it is on that device's io list, unfinished and not privately held by
  // abort: nobody completes it, so its argument pages stay valid.
  lemma LockedNotEnded(ss: seq<State>, steps: seq<Step>, i: nat, t: Tid, r: Rid, d: Did, write: bool)
    requires Run(ss, steps) && i < |ss| && At(ss[i].threads, t) == On(r, Copy(d, write, true))
    ensures r in ss[i].reqs && ss[i].reqs[r].list == Io(d) && !ss[i].reqs[r].f.finished && !ss[i].reqs[r].f.priv
  {
    RunThread(ss, steps, i, t);
    RunReq(ss, steps, i, r);
    CopyingFlags(t, ss[i].reqs[r], r, d, write, true, ss[i].threads, ss[i].conn.devs);
  }

  // Locking and stealing a page succeed only on a request that is not completed.
  lemma CopyOnlyLive(ss: seq<State>, steps: seq<Step>, i: nat, t: Tid, r: Rid, d: Did, write: bool)
    requires Run(ss, steps) && i < |ss| && At(ss[i].threads, t) == On(r, Copy(d, write, false)) && r in ss[i].reqs
    ensures ss[i].reqs[r].f.finished ==>
              forall a: CopyAction | !a.StopCopy? ::
                CopyDo(ss[i].conn, r, d, write, ss[i].reqs[r], a) ==
                  Out(ss[i].conn, On(r, CopyDone(d, write, false)), ss[i].reqs[r])
  {
    RunThread(ss, steps, i, t);
    RunReq(ss, steps, i, r);
    CopyingFlags(t, ss[i].reqs[r], r, d, write, false, ss[i].threads, ss[i].conn.devs);
  }

  // ------------------------------------------------ interrupts

  // No interrupt is lost: once a sent request is interrupted, an interrupt has been queued or the submitter or the
  // reader has yet to make its check.  None dangles: a queued one belongs to a request that is not freed and whose
  // completion has not passed its removal point.
  lemma InterruptsSafe(ss: seq<State>, steps: seq<Step>, i: nat, r: Rid)
    requires Run(ss, steps) && i < |ss| && r in ss[i].reqs
    ensures var q, ths := ss[i].reqs[r], ss[i].threads;
            && (q.f.sent && q.f.interrupted ==> q.h.intrQueued || CheckToCome(q, r, ths))
            && (q.onIntr ==> q.f.interrupted && q.count > 0)
            && (q.onIntr && q.f.finished ==> q.h.completer.Thread? && Unlinking(At(ths, q.h.completer.id), r))
  {
    RunKeeps(ss, steps, i);
    var s, q := ss[i], ss[i].reqs[r];
    assert ReqInv(q, r, s.threads, s.conn) && Counted(q, r, s.threads);
    if q.count <= 0 {
      Unused(q, r, s.threads, s.conn);
    }
  }

  // ------------------------------------------------ reply lookup

  const FUSE_INT_REQ_BIT: nat := 1

  lemma RunIds(ss: seq<State>, steps: seq<Step>, i: nat)
    requires Run(ss, steps) && i < |ss|
    ensures DistinctIds(ss[i].reqs)
  {
    RunKeeps(ss, steps, i);
  }

  lemma RunNumbered(ss: seq<State>, steps: seq<Step>, i: nat, r: Rid)
    requires Run(ss, steps) && i < |ss| && r in ss[i].reqs && ss[i].reqs[r].list.Processing?
    ensures ss[i].reqs[r].f.isreply && ss[i].reqs[r].unique != 0 && Even(ss[i].reqs[r].unique)
  {
    RunReq(ss, steps, i, r);
  }

  // An id in a reply header names at most one request waiting on processing lists; ids of ordinary replies and of
  // interrupt replies never meet.
  lemma ReplyIdsMatchOnce(ss: seq<State>, steps: seq<Step>, i: nat, r1: Rid, r2: Rid)
    requires Run(ss, steps) && i < |ss| && r1 in ss[i].reqs && r2 in ss[i].reqs
    requires ss[i].reqs[r1].list.Processing? && ss[i].reqs[r2].list.Processing?
    ensures var u1, u2 := ss[i].reqs[r1].unique, ss[i].reqs[r2].unique;
            u1 != 0 && (u1 == u2 ==> r1 == r2) && u1 != u2 + FUSE_INT_REQ_BIT
  {
    RunIds(ss, steps, i);
    RunNumbered(ss, steps, i, r1);
    RunNumbered(ss, steps, i, r2);
  }

  // ------------------------------------------------ counters

  // The background counters, also while bg_lock is held; blocked is exact unless process_init_limits has left it stale
  lemma BackgroundCounts(ss: seq<State>, steps: seq<Step>, i: nat)
    requires Run(ss, steps) && i < |ss|
    ensures var s := ss[i];
            && s.conn.bg.num == s.conn.bg.active + |BgQueued(s.reqs)|
            && s.conn.bg.active == |ActiveReqs(s.reqs)|
            && ((s.conn.bg.blocked <==> s.conn.bg.num >= s.conn.bg.max) <==> !s.conn.bg.stale)
  {
    RunKeeps(ss, steps, i);
  }

  // blocked goes stale exactly when process_init_limits moves the limit to the other side of num_background.
  lemma GoesStale(ss: seq<State>, steps: seq<Step>, i: nat)
    requires Run(ss, steps) && i < |steps| && !ss[i].conn.bg.stale
    ensures var a, b := steps[i].a, ss[i].conn.bg;
            ss[i + 1].conn.bg.stale <==>
            a.OnConn? && a.ca.InitLimits? && (b.num >= a.ca.limit) != (b.num >= b.max)
  {
    RunKeeps(ss, steps, i);
    StaleStep(ss[i], steps[i].t, steps[i].a);
  }

  lemma StageStale(t: Tid, c: Conn, r: Rid, st: Stage, q: Req, x: Choice)
    requires StageCan(c, st, q, x) && !c.bg.stale
    ensures !StageDo(t, c, r, st, q, x).c.bg.stale
  {
  }

  lemma LocalStale(t: Tid, c: Conn, pc: Pc, r: Rid, q: Req, x: Choice)
    requires LocalCan(t, c, pc, r, q, x) && !c.bg.stale
    ensures !LocalDo(t, c, pc, r, q, x).c.bg.stale
  {
    if !x.Flush? && pc.On? {
      StageStale(t, c, r, pc.st, q, x);
    }
  }

  lemma ConnStale(t: Tid, c: Conn, pc: Pc, a: ConnAction)
    requires !c.bg.stale && BlockedOk(c.bg)
    ensures ConnDo(t, c, pc, a).0.bg.stale <==> a.InitLimits? && (c.bg.num >= a.limit) != (c.bg.num >= c.bg.max)
  {
  }

  lemma StaleStep(s: State, t: Tid, a: Action)
    requires Can(s, t, a) && !s.conn.bg.stale && BlockedOk(s.conn.bg)
    ensures Next(s, t, a).conn.bg.stale <==>
            a.OnConn? && a.ca.InitLimits? && (s.conn.bg.num >= a.ca.limit) != (s.conn.bg.num >= s.conn.bg.max)
  {
    match a
    case OnReq(r, x) => LocalStale(t, s.conn, At(s.threads, t), r, s.reqs[r], x);
    case OnConn(x) => ConnStale(t, s.conn, At(s.threads, t), x);
    case OnMany(x) =>
  }

  // num_waiting counts the requests with FR_WAITING and the threads in fuse_get_req; at zero there are none.
  lemma NumWaitingExact(ss: seq<State>, steps: seq<Step>, i: nat)
    requires Run(ss, steps) && i < |ss|
    ensures var s := ss[i];
            && s.conn.numWaiting == |WaitingReqs(s.reqs)| + |Getters(s.threads)|
            && (s.conn.numWaiting == 0 ==>
                  (forall r | r in s.reqs :: !s.reqs[r].f.waiting)
                    && (forall t | t in s.threads :: !s.threads[t].Getting?))
  {
    RunKeeps(ss, steps, i);
    var s := ss[i];
    if s.conn.numWaiting == 0 {
      assert WaitingReqs(s.reqs) == {} && Getters(s.threads) == {};
      forall r | r in s.reqs ensures !s.reqs[r].f.waiting {
        assert r !in WaitingReqs(s.reqs);
      }
      forall t | t in s.threads ensures !s.threads[t].Getting? {
        assert t !in Getters(s.threads);
      }
    }
  }

  // ------------------------------------------------ abort

  // bg_queue, pending, io or processing
  predicate Queued(l: ListHead) { l.BgQueue? || l.Pending? || l.Io? || l.Processing? }

  ghost predicate AbortDone(c: Conn) { c.abortPhase == 4 }

  predicate AddsNone(q: Req, o: Out) { (Queued(o.q.list) ==> o.q.list == q.list) && o.c.abortPhase == 4 }

  lemma StageAddsNone(t: Tid, c: Conn, r: Rid, st: Stage, q: Req, x: Choice)
    requires StageCan(c, st, q, x) && AbortInv(c) && AbortDone(c)
    ensures AddsNone(q, StageDo(t, c, r, st, q, x))
  {
    match st
    case Alloced(kind) => assert AddsNone(q, SubmitDo(t, c, r, kind, q, x.s));
    case Waiting(w) => assert AddsNone(q, WaitDo(c, r, q, x.w));
    case Putting(p, k) => assert AddsNone(q, PutDo(t, c, r, p, k, q));
    case Taken(d) => assert AddsNone(q, TakenDo(c, r, d, q, x.tl));
    case CopyDone(d, wrote, ok) => assert AddsNone(q, CopyDoneDo(t, c, r, d, wrote, ok, q));
    case Ending(e, k) => assert AddsNone(q, EndDo(t, c, r, e, k, q));
    case _ =>
  }

  // The devices are disconnected: an idle thread can take or find nothing.
  lemma PickNone(c: Conn, q: Req, a: PickAction)
    requires AbortInv(c) && AbortDone(c)
    ensures !PickCan(c, q, a)
  {
  }

  lemma LocalAddsNone(t: Tid, c: Conn, pc: Pc, r: Rid, q: Req, x: Choice)
    requires LocalCan(t, c, pc, r, q, x) && AbortInv(c) && AbortDone(c) && Numbered(q, c)
    ensures AddsNone(q, LocalDo(t, c, pc, r, q, x))
  {
    if !x.Flush? && pc.On? {
      StageAddsNone(t, c, r, pc.st, q, x);
    } else if pc.Idle? {
      PickNone(c, q, x.p);
    }
  }

  lemma ConnStaysDone(s: State, t: Tid, a: ConnAction)
    requires ConnCan(s, t, a) && AbortInv(s.conn) && AbortDone(s.conn) && PcConn(t, At(s.threads, t), s.conn)
    ensures AbortDone(ConnDo(t, s.conn, At(s.threads, t), a).0)
  {
  }

  lemma WideAddsNone(s: State, t: Tid, a: WideAction, r: Rid)
    requires WideCan(s, t, a) && AbortInv(s.conn) && AbortDone(s.conn) && PcConn(t, At(s.threads, t), s.conn)
    ensures var s' := WideDo(s, t, a);
            && s'.conn.abortPhase == 4
            && (r in s'.reqs && Queued(s'.reqs[r].list) ==> r in s.reqs && s'.reqs[r].list == s.reqs[r].list)
  {
  }

  // After the last queue section of fuse_abort_conn no step puts a request on a queue.
  lemma StepAddsNone(s: State, t: Tid, a: Action, r: Rid)
    requires AbortInv(s.conn) && ReqsInv(s) && PcConn(t, At(s.threads, t), s.conn) && Can(s, t, a) && AbortDone(s.conn)
    ensures var s' := Next(s, t, a);
            && AbortDone(s'.conn)
            && (r in s'.reqs && Queued(s'.reqs[r].list) ==> r in s.reqs && s'.reqs[r].list == s.reqs[r].list)
  {
    match a
    case OnReq(x, choice) =>
      assert Numbered(s.reqs[x], s.conn);
      LocalAddsNone(t, s.conn, At(s.threads, t), x, s.reqs[x], choice);
    case OnConn(x) =>
      ConnStaysDone(s, t, x);
    case OnMany(x) =>
      WideAddsNone(s, t, x, r);
  }

  function ListOf(s: State, r: Rid): ListHead { if r in s.reqs then s.reqs[r].list else NoList }

  ghost predicate StaysAborted(s: State, s': State, r: Rid) {
    AbortDone(s.conn) ==> AbortDone(s'.conn) && (Queued(ListOf(s', r)) ==> ListOf(s', r) == ListOf(s, r))
  }

  lemma RunAddsNone(ss: seq<State>, steps: seq<Step>, j: nat, r: Rid)
    requires Run(ss, steps) && j < |steps|
    ensures StaysAborted(ss[j], ss[j + 1], r)
  {
    if AbortDone(ss[j].conn) {
      RunKeeps(ss, steps, j);
      RunThread(ss, steps, j, steps[j].t);
      StepAddsNone(ss[j], steps[j].t, steps[j].a, r);
    }
  }

  lemma {:induction false} ChainAborted(ss: seq<State>, i: nat, j: nat, r: Rid)
    requires i <= j < |ss| && AbortDone(ss[i].conn)
    requires forall k: nat | k < |ss| - 1 :: StaysAborted(ss[k], ss[k + 1], r)
    ensures AbortDone(ss[j].conn) && (Queued(ListOf(ss[j], r)) ==> ListOf(ss[j], r) == ListOf(ss[i], r))
  {
    if i < j {
      ChainAborted(ss, i, j - 1, r);
      assert StaysAborted(ss[j - 1], ss[j], r);
    }
  }

  // ... for the rest of the run: whatever is queued at j was on the same queue at every earlier moment since.
  lemma AbortedForGood(ss: seq<State>, steps: seq<Step>, i: nat, j: nat, r: Rid)
    requires Run(ss, steps) && i <= j < |ss| && AbortDone(ss[i].conn)
    ensures AbortDone(ss[j].conn) && (Queued(ListOf(ss[j], r)) ==> ListOf(ss[j], r) == ListOf(ss[i], r))
  {
    forall k: nat | k < |ss| - 1 ensures StaysAborted(ss[k], ss[k + 1], r) {
      RunAddsNone(ss, steps, k, r);
    }
    ChainAborted(ss, i, j, r);
  }

  // What is then left is a request that a device thread is still copying; nothing is pending or awaits a reply.
  lemma AbortEmpties(ss: seq<State>, steps: seq<Step>, i: nat, r: Rid)
    requires Run(ss, steps) && i < |ss| && AbortDone(ss[i].conn) && r in ss[i].reqs && Queued(ss[i].reqs[r].list)
    ensures var q := ss[i].reqs[r];
            q.list.Io? && q.h.carrier.Thread? && CopyingOn(At(ss[i].threads, q.h.carrier.id), r, q.list.dev)
  {
    RunAbort(ss, steps, i);
    RunReq(ss, steps, i, r);
  }

  lemma NoneWhenIdle(ss: seq<State>, steps: seq<Step>, i: nat, r: Rid)
    requires Run(ss, steps) && i < |ss| && AbortDone(ss[i].conn)
      && forall t | t in ss[i].threads :: ss[i].threads[t].Idle?
    ensures r !in ss[i].reqs
  {
    assert Holders(ss[i].threads, r) == {};
    if r in ss[i].reqs {
      RunReq(ss, steps, i, r);
      RunAbort(ss, steps, i);
      assert false;
    }
  }

  // Every request still alive gets completed and freed: once the threads have finished, none is left, and no waiter.
  lemma AbortDrains(ss: seq<State>, steps: seq<Step>, i: nat)
    requires Run(ss, steps) && i < |ss| && AbortDone(ss[i].conn)
      && forall t | t in ss[i].threads :: ss[i].threads[t].Idle?
    ensures ss[i].reqs == map[] && ss[i].conn.numWaiting == 0 && ss[i].conn.bg.num == 0
  {
    forall r ensures r !in ss[i].reqs {
      NoneWhenIdle(ss, steps, i, r);
    }
    NumWaitingExact(ss, steps, i);
    BackgroundCounts(ss, steps, i);
    var s := ss[i];
    assert WaitingReqs(s.reqs) == {} && Getters(s.threads) == {} && ActiveReqs(s.reqs) == {} && BgQueued(s.reqs) == {};
  }

  // fuse_dev_release finds the io list of its device empty.
  lemma ReleaseFindsIoEmpty(ss: seq<State>, steps: seq<Step>, i: nat, t: Tid, d: Did, r: Rid)
    requires Run(ss, steps) && i < |ss| && Can(ss[i], t, OnMany(Release(d))) && r in ss[i].reqs
    ensures ss[i].reqs[r].list != Io(d)
  {
    RunReq(ss, steps, i, r);
  }
}
