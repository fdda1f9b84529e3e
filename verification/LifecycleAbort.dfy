// The sections of fuse_abort_conn and fuse_dev_release that move many requests at once keep the invariant.
module LifecycleAbort {
  import opened Counting
  import opened RequestLifecycle
  import opened LifecycleInvariant
  import opened LifecycleKeeps
  import opened LifecycleWide

  // Sections that only move requests between lists

  lemma MovedRefs(reqs: map<Rid, Req>, ths: map<Tid, Pc>, t: Tid, reqs': map<Rid, Req>, pc': Pc)
    requires reqs'.Keys == reqs.Keys && !At(ths, t).On? && !pc'.On?
    requires forall r | r in reqs :: Counted(reqs[r], r, ths)
    requires forall r | r in reqs :: reqs'[r].count - ListRef(reqs'[r].list) == reqs[r].count - ListRef(reqs[r].list)
    ensures forall r | r in reqs' :: Counted(reqs'[r], r, ths[t := pc'])
  {
    forall r | r in reqs' ensures Counted(reqs'[r], r, ths[t := pc']) {
      HoldersStep(ths, t, pc', r);
    }
  }

  lemma SameWhere(reqs: map<Rid, Req>, reqs': map<Rid, Req>, p: Req -> bool)
    requires reqs'.Keys == reqs.Keys && forall r | r in reqs :: p(reqs'[r]) == p(reqs[r])
    ensures Where(reqs', p) == Where(reqs, p)
  {
  }

  // Such a section keeps what the counters count ...
  ghost predicate SameCounts(q: Req, q': Req) {
    IsWaiting(q') == IsWaiting(q) && IsActive(q') == IsActive(q) && IsBgQueued(q') == IsBgQueued(q)
  }

  // ... and the counters
  ghost predicate SameCounters(c: Conn, c': Conn) {
    c'.bg == c.bg && c'.numWaiting == c.numWaiting && c'.reqctr == c.reqctr
  }

  lemma MovedCounts(reqs: map<Rid, Req>, reqs': map<Rid, Req>)
    requires reqs'.Keys == reqs.Keys && forall r | r in reqs :: SameCounts(reqs[r], reqs'[r])
    ensures |WaitingReqs(reqs')| == |WaitingReqs(reqs)| && |ActiveReqs(reqs')| == |ActiveReqs(reqs)|
    ensures |BgQueued(reqs')| == |BgQueued(reqs)| && |reqs'| == |reqs|
  {
    SameWhere(reqs, reqs', IsWaiting);
    SameWhere(reqs, reqs', IsActive);
    SameWhere(reqs, reqs', IsBgQueued);
    assert |reqs'.Keys| == |reqs.Keys|;
  }

  lemma MovedConn(s: State, t: Tid, s': State, pc': Pc)
    requires ConnInv(s) && s'.reqs.Keys == s.reqs.Keys && SameCounters(s.conn, s'.conn) && AbortInv(s'.conn)
    requires forall r | r in s.reqs :: SameCounts(s.reqs[r], s'.reqs[r])
    requires s'.threads == s.threads[t := pc'] && !At(s.threads, t).Getting? && !pc'.Getting?
    requires !HoldsBgLock(At(s.threads, t))
    ensures ConnInv(s')
  {
    MovedCounts(s.reqs, s'.reqs);
    GettersStep(s.threads, t, pc');
  }

  lemma AbortDevReq(q: Req, r: Rid, ths: map<Tid, Pc>, c: Conn, t: Tid, d: Did, left: set<Did>)
    requires ReqInv(q, r, ths, c) && At(ths, t).AbortDevs? && d in c.devs
    ensures ReqInv(AbortOnDev(q, d, t), r, ths[t := AbortDevs(left)],
                   AbortDevConn(c, d))
  {
    AbortDevListed(q, r, ths, c.devs, t, d, left);
    AbortDevRest(q, r, ths, t, d, left);
  }

  lemma AbortDevListed(q: Req, r: Rid, ths: map<Tid, Pc>, devs: map<Did, Dev>, t: Tid, d: Did, left: set<Did>)
    requires Listed(q, r, ths, devs) && Flagged(q, r, ths) && At(ths, t).AbortDevs? && d in devs
    ensures Listed(AbortOnDev(q, d, t), r, ths[t := AbortDevs(left)], devs[d := devs[d].(connected := false)])
    ensures Flagged(AbortOnDev(q, d, t), r, ths[t := AbortDevs(left)])
  {
  }

  lemma AbortDevRest(q: Req, r: Rid, ths: map<Tid, Pc>, t: Tid, d: Did, left: set<Did>)
    requires OnceOnly(q, r, ths) && Responsible(q, r, ths) && Accounted(q, r, ths) && Interruptible(q, r, ths)
    requires q.list.Io? ==> q.h.carrier.Thread? && Carrying(At(ths, q.h.carrier.id), r) && !q.f.pending
    requires q.list.Io? || q.list.Processing? ==> !q.f.pending && !q.f.finished && !q.f.priv
    requires At(ths, t).AbortDevs?
    ensures var q', ths' := AbortOnDev(q, d, t), ths[t := AbortDevs(left)];
            OnceOnly(q', r, ths') && Responsible(q', r, ths') && Accounted(q', r, ths') && Interruptible(q', r, ths')
  {
  }

  lemma AbortDevStage(u: Tid, st: Stage, q: Req, devs: map<Did, Dev>, t: Tid, d: Did)
    requires StageOk(u, st, q, devs) && u != t && d in devs && (q.list.Io? ==> q.count >= 1)
    requires q.list.Processing? ==> !q.f.pending && !q.f.finished && !q.f.priv
    ensures StageOk(u, st, AbortOnDev(q, d, t), devs[d := devs[d].(connected := false)])
  {
  }

  // A list position that holds a reference, or a thread that does
  lemma IoHeld(s: State, r: Rid)
    requires Inv(s) && r in s.reqs && s.reqs[r].list.Io?
    ensures s.reqs[r].count >= 1
  {
    var q := s.reqs[r];
    assert ReqInv(q, r, s.threads, s.conn) && Counted(q, r, s.threads);
    HoldersStep(s.threads, q.h.carrier.id, At(s.threads, q.h.carrier.id), r);
  }

  // The section of fuse_abort_conn under the lock of device d, from s to s'
  ghost predicate DevAborted(s: State, t: Tid, d: Did, left: set<Did>, s': State) {
    && At(s.threads, t).AbortDevs? && d in s.conn.devs
    && s'.reqs == (map r | r in s.reqs :: AbortOnDev(s.reqs[r], d, t))
    && s'.threads == s.threads[t := AbortDevs(left)] && s'.conn == AbortDevConn(s.conn, d)
  }

  lemma AbortDevReqs(s: State, t: Tid, d: Did, left: set<Did>, s': State)
    requires ReqsInv(s) && DevAborted(s, t, d, left, s')
    ensures ReqsInv(s')
  {
    forall r | r in s.reqs ensures ReqInv(s'.reqs[r], r, s'.threads, s'.conn) {
      AbortDevReq(s.reqs[r], r, s.threads, s.conn, t, d, left);
    }
  }

  lemma AbortDevRefs(s: State, t: Tid, d: Did, left: set<Did>, s': State)
    requires RefsInv(s) && DevAborted(s, t, d, left, s')
    ensures RefsInv(s')
  {
    MovedRefs(s.reqs, s.threads, t, s'.reqs, AbortDevs(left));
  }

  lemma MovedIds(reqs: map<Rid, Req>, reqs': map<Rid, Req>)
    requires DistinctIds(reqs) && reqs'.Keys == reqs.Keys
    requires forall r | r in reqs :: reqs'[r].unique == reqs[r].unique && reqs'[r].f.isreply == reqs[r].f.isreply
    ensures DistinctIds(reqs')
  {
  }

  lemma AbortDevIds(s: State, t: Tid, d: Did, left: set<Did>, s': State)
    requires DistinctIds(s.reqs) && DevAborted(s, t, d, left, s')
    ensures DistinctIds(s'.reqs)
  {
    MovedIds(s.reqs, s'.reqs);
  }

  lemma AbortDevInv(c: Conn, d: Did)
    requires AbortInv(c) && d in c.devs
    ensures AbortInv(AbortDevConn(c, d)) && SameCounters(c, AbortDevConn(c, d))
  {
  }

  lemma AbortDevSame(q: Req, d: Did, t: Tid)
    ensures SameCounts(q, AbortOnDev(q, d, t))
  {
    match q.list
    case Io(_) =>
    case Processing(_) =>
    case _ =>
  }

  lemma AbortDevCounts(s: State, t: Tid, d: Did, left: set<Did>, s': State)
    requires ConnInv(s) && DevAborted(s, t, d, left, s')
    ensures ConnInv(s')
  {
    forall r | r in s.reqs ensures SameCounts(s.reqs[r], s'.reqs[r]) {
      AbortDevSame(s.reqs[r], d, t);
    }
    AbortDevInv(s.conn, d);
    MovedConn(s, t, s', AbortDevs(left));
  }

  lemma AbortDevThreads(s: State, t: Tid, d: Did, s': State)
    requires Inv(s) && At(s.threads, t).AbortDevs? && DevAborted(s, t, d, At(s.threads, t).left - {d}, s')
    ensures ThreadsInv(s')
  {
    GetThread(s, t);
    forall u | u in s'.threads ensures ThreadInv(u, s'.threads[u], s'.reqs, s'.conn) {
      if u != t {
        var pcu := s.threads[u];
        assert ThreadInv(u, pcu, s.reqs, s.conn);
        if pcu.On? {
          var q := s.reqs[pcu.r];
          assert ReqInv(q, pcu.r, s.threads, s.conn);
          if q.list.Io? {
            IoHeld(s, pcu.r);
          }
          AbortDevStage(u, pcu.st, q, s.conn.devs, t, d);
        }
      }
    }
  }

  lemma AbortDevMeans(s: State, t: Tid, d: Did)
    requires WideCan(s, t, AbortDev(d))
    ensures DevAborted(s, t, d, At(s.threads, t).left - {d}, WideDo(s, t, AbortDev(d)))
  {
  }

  lemma AbortDevKeeps(s: State, t: Tid, d: Did, s': State)
    requires Inv(s) && At(s.threads, t).AbortDevs? && DevAborted(s, t, d, At(s.threads, t).left - {d}, s')
    ensures Inv(s')
  {
    var left := At(s.threads, t).left - {d};
    AbortDevReqs(s, t, d, left, s');
    AbortDevRefs(s, t, d, left, s');
    AbortDevThreads(s, t, d, s');
    AbortDevCounts(s, t, d, left, s');
    AbortDevIds(s, t, d, left, s');
  }

  // ------------------------------------------------ the input queue

  ghost predicate QueueAborted(s: State, t: Tid, s': State) {
    && At(s.threads, t).AbortFiq? && s.conn.abortPhase == 3
    && s'.reqs == (map r | r in s.reqs :: AbortPending(s.reqs[r], t))
    && s'.threads == s.threads[t := NextReq(false)] && s'.conn == s.conn.(fiqConnected := false, abortPhase := 4)
  }

  lemma AbortQueueListed(q: Req, r: Rid, ths: map<Tid, Pc>, devs: map<Did, Dev>, t: Tid)
    requires Listed(q, r, ths, devs) && Flagged(q, r, ths) && At(ths, t).AbortFiq?
    ensures Listed(AbortPending(q, t), r, ths[t := NextReq(false)], devs)
    ensures Flagged(AbortPending(q, t), r, ths[t := NextReq(false)])
  {
  }

  lemma AbortQueueRest(q: Req, r: Rid, ths: map<Tid, Pc>, t: Tid)
    requires OnceOnly(q, r, ths) && Responsible(q, r, ths) && Accounted(q, r, ths) && Interruptible(q, r, ths)
    requires q.list.Pending? ==> q.f.pending && !q.f.finished && !q.f.priv && !q.f.sent
    requires At(ths, t).AbortFiq?
    ensures var q', ths' := AbortPending(q, t), ths[t := NextReq(false)];
            OnceOnly(q', r, ths') && Responsible(q', r, ths') && Accounted(q', r, ths') && Interruptible(q', r, ths')
  {
  }

  lemma AbortQueueReqs(s: State, t: Tid, s': State)
    requires ReqsInv(s) && QueueAborted(s, t, s')
    ensures ReqsInv(s')
  {
    forall r | r in s.reqs ensures ReqInv(s'.reqs[r], r, s'.threads, s'.conn) {
      AbortQueueListed(s.reqs[r], r, s.threads, s.conn.devs, t);
      AbortQueueRest(s.reqs[r], r, s.threads, t);
    }
  }

  lemma AbortQueueRefs(s: State, t: Tid, s': State)
    requires RefsInv(s) && QueueAborted(s, t, s')
    ensures RefsInv(s')
  {
    MovedRefs(s.reqs, s.threads, t, s'.reqs, NextReq(false));
  }

  lemma AbortQueueIds(s: State, t: Tid, s': State)
    requires DistinctIds(s.reqs) && QueueAborted(s, t, s')
    ensures DistinctIds(s'.reqs)
  {
    MovedIds(s.reqs, s'.reqs);
  }

  lemma AbortQueueCounts(s: State, t: Tid, s': State)
    requires ConnInv(s) && QueueAborted(s, t, s')
    ensures ConnInv(s')
  {
    forall r | r in s.reqs ensures SameCounts(s.reqs[r], s'.reqs[r]) {
    }
    MovedConn(s, t, s', NextReq(false));
  }

  lemma AbortQueueStage(u: Tid, st: Stage, q: Req, devs: map<Did, Dev>, t: Tid)
    requires StageOk(u, st, q, devs) && (q.list.Pending? ==> q.f.pending && !q.f.finished && !q.f.priv && q.count >= 1)
    ensures StageOk(u, st, AbortPending(q, t), devs)
  {
  }

  lemma ListHeld(s: State, r: Rid)
    requires r in s.reqs && ReqInv(s.reqs[r], r, s.threads, s.conn) && Counted(s.reqs[r], r, s.threads)
    ensures s.reqs[r].list.Pending? || s.reqs[r].list.Processing? ==> s.reqs[r].count >= 1
  {
  }

  lemma AbortQueueThreads(s: State, t: Tid, s': State)
    requires ThreadsInv(s) && ReqsInv(s) && RefsInv(s) && QueueAborted(s, t, s') && PcConn(t, At(s.threads, t), s.conn)
    ensures ThreadsInv(s')
  {
    forall u | u in s'.threads ensures ThreadInv(u, s'.threads[u], s'.reqs, s'.conn) {
      if u != t {
        var pcu := s.threads[u];
        assert ThreadInv(u, pcu, s.reqs, s.conn);
        if pcu.On? {
          ListHeld(s, pcu.r);
          AbortQueueStage(u, pcu.st, s.reqs[pcu.r], s.conn.devs, t);
        }
      }
    }
  }

  lemma AbortQueueMeans(s: State, t: Tid)
    requires WideCan(s, t, AbortPendingQueue) && PcConn(t, At(s.threads, t), s.conn)
    ensures QueueAborted(s, t, WideDo(s, t, AbortPendingQueue))
  {
  }

  lemma AbortQueueKeeps(s: State, t: Tid, s': State)
    requires Inv(s) && QueueAborted(s, t, s') && PcConn(t, At(s.threads, t), s.conn)
    ensures Inv(s')
  {
    AbortQueueReqs(s, t, s');
    AbortQueueRefs(s, t, s');
    AbortQueueThreads(s, t, s');
    AbortQueueCounts(s, t, s');
    AbortQueueIds(s, t, s');
  }

  // ------------------------------------------------ releasing a device

  function CloseDev(c: Conn, d: Did): Conn
    requires d in c.devs
  {
    c.(devs := c.devs[d := c.devs[d].(open := false)])
  }

  ghost predicate Released(s: State, t: Tid, d: Did, s': State) {
    && At(s.threads, t).Idle? && d in s.conn.devs && (forall u | u in s.threads :: !UsesDev(s.threads[u], d))
    && s'.reqs == (map r | r in s.reqs :: ReleaseDev(s.reqs[r], d, t))
    && s'.threads == s.threads[t := NextReq(true)] && s'.conn == CloseDev(s.conn, d)
  }

  lemma ReleaseListed(q: Req, r: Rid, ths: map<Tid, Pc>, devs: map<Did, Dev>, t: Tid, d: Did)
    requires Listed(q, r, ths, devs) && Flagged(q, r, ths) && At(ths, t).Idle? && d in devs
    ensures Listed(ReleaseDev(q, d, t), r, ths[t := NextReq(true)], devs[d := devs[d].(open := false)])
    ensures Flagged(ReleaseDev(q, d, t), r, ths[t := NextReq(true)])
  {
  }

  lemma ReleaseRest(q: Req, r: Rid, ths: map<Tid, Pc>, t: Tid, d: Did)
    requires OnceOnly(q, r, ths) && Responsible(q, r, ths) && Accounted(q, r, ths) && Interruptible(q, r, ths)
    requires q.list.Processing? ==> !q.f.pending && !q.f.finished && !q.f.priv
    requires At(ths, t).Idle?
    ensures var q', ths' := ReleaseDev(q, d, t), ths[t := NextReq(true)];
            OnceOnly(q', r, ths') && Responsible(q', r, ths') && Accounted(q', r, ths') && Interruptible(q', r, ths')
  {
  }

  lemma ReleaseReqs(s: State, t: Tid, d: Did, s': State)
    requires ReqsInv(s) && Released(s, t, d, s')
    ensures ReqsInv(s')
  {
    forall r | r in s.reqs ensures ReqInv(s'.reqs[r], r, s'.threads, s'.conn) {
      ReleaseListed(s.reqs[r], r, s.threads, s.conn.devs, t, d);
      ReleaseRest(s.reqs[r], r, s.threads, t, d);
    }
  }

  lemma ReleaseRefs(s: State, t: Tid, d: Did, s': State)
    requires RefsInv(s) && Released(s, t, d, s')
    ensures RefsInv(s')
  {
    MovedRefs(s.reqs, s.threads, t, s'.reqs, NextReq(true));
  }

  lemma ReleaseIds(s: State, t: Tid, d: Did, s': State)
    requires DistinctIds(s.reqs) && Released(s, t, d, s')
    ensures DistinctIds(s'.reqs)
  {
    MovedIds(s.reqs, s'.reqs);
  }

  lemma ReleaseCounts(s: State, t: Tid, d: Did, s': State)
    requires ConnInv(s) && Released(s, t, d, s')
    ensures ConnInv(s')
  {
    forall r | r in s.reqs ensures SameCounts(s.reqs[r], s'.reqs[r]) {
    }
    MovedConn(s, t, s', NextReq(true));
  }

  lemma ReleaseStage(u: Tid, st: Stage, q: Req, r: Rid, devs: map<Did, Dev>, t: Tid, d: Did)
    requires StageOk(u, st, q, devs) && d in devs && !UsesDev(On(r, st), d)
    requires q.list.Processing? ==> !q.f.pending && !q.f.finished && !q.f.priv && q.count >= 1
    ensures StageOk(u, st, ReleaseDev(q, d, t), devs[d := devs[d].(open := false)])
  {
  }

  lemma ReleaseThreads(s: State, t: Tid, d: Did, s': State)
    requires ThreadsInv(s) && ReqsInv(s) && RefsInv(s) && Released(s, t, d, s')
    ensures ThreadsInv(s')
  {
    forall u | u in s'.threads ensures ThreadInv(u, s'.threads[u], s'.reqs, s'.conn) {
      if u != t {
        var pcu := s.threads[u];
        assert ThreadInv(u, pcu, s.reqs, s.conn);
        if pcu.On? {
          ListHeld(s, pcu.r);
          ReleaseStage(u, pcu.st, s.reqs[pcu.r], pcu.r, s.conn.devs, t, d);
        }
      }
    }
  }

  lemma ReleaseMeans(s: State, t: Tid, d: Did)
    requires WideCan(s, t, Release(d))
    ensures Released(s, t, d, WideDo(s, t, Release(d)))
  {
  }

  lemma ReleaseKeeps(s: State, t: Tid, d: Did, s': State)
    requires Inv(s) && Released(s, t, d, s')
    ensures Inv(s')
  {
    ReleaseReqs(s, t, d, s');
    ReleaseRefs(s, t, d, s');
    ReleaseThreads(s, t, d, s');
    ReleaseCounts(s, t, d, s');
    ReleaseIds(s, t, d, s');
  }

  // ------------------------------------------------ all of them

  lemma AllocMeans(s: State, t: Tid, r: Rid, isreply: bool, async: bool)
    requires WideCan(s, t, AllocGet(r, isreply, async))
    ensures var kind := At(s.threads, t).gkind;
            WideDo(s, t, AllocGet(r, isreply, async)) ==
            Allocated(s, t, r, kind, NewReq(t, true, kind.Background?, kind.SyncForce?, isreply, async))
  {
  }

  lemma AllocForceMeans(s: State, t: Tid, r: Rid, async: bool)
    requires WideCan(s, t, AllocForceBg(r, async))
    ensures WideDo(s, t, AllocForceBg(r, async)) ==
            Allocated(s, t, r, Background, NewReq(t, false, true, false, true, async))
  {
  }

  lemma TakeMeans(s: State, t: Tid, d: Did, r: Rid)
    requires WideCan(s, t, TakePending(d, r))
    ensures WideDo(s, t, TakePending(d, r)) == After(s, t, r, Out(s.conn, On(r, Taken(d)), TakeReq(s.reqs[r], t)))
  {
  }

  lemma WideKeeps(s: State, t: Tid, a: WideAction)
    requires Inv(s) && WideCan(s, t, a)
    ensures Inv(WideDo(s, t, a))
  {
    match a
    case AllocGet(r, isreply, async) =>
      var kind := At(s.threads, t).gkind;
      AllocMeans(s, t, r, isreply, async);
      AllocKeeps(s, t, r, kind, NewReq(t, true, kind.Background?, kind.SyncForce?, isreply, async));
    case AllocForceBg(r, async) =>
      AllocForceMeans(s, t, r, async);
      AllocKeeps(s, t, r, Background, NewReq(t, false, true, false, true, async));
    case Freeing =>
      FreeMeans(s, t);
      FreeKeeps(s, t, At(s.threads, t).r, At(s.threads, t).st.pk);
    case TakePending(d, r) =>
      TakeMeans(s, t, d, r);
      TakeKeeps(s, t, d, r);
    case AbortDev(d) =>
      AbortDevMeans(s, t, d);
      AbortDevKeeps(s, t, d, WideDo(s, t, a));
    case AbortPendingQueue =>
      GetThread(s, t);
      AbortQueueMeans(s, t);
      AbortQueueKeeps(s, t, WideDo(s, t, a));
    case Release(d) =>
      ReleaseMeans(s, t, d);
      ReleaseKeeps(s, t, d, WideDo(s, t, a));
  }
}
