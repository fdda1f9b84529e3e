// Steps of RequestLifecycle that touch no request or several of them keep the invariant.
module LifecycleWide {
  import opened Counting
  import opened RequestLifecycle
  import opened LifecycleInvariant
  import opened LifecycleSteps
  import opened LifecycleKeeps

  lemma GetThread(s: State, t: Tid)
    requires Inv(s)
    ensures ThreadInv(t, At(s.threads, t), s.reqs, s.conn)
  {
    if t in s.threads {
      assert ThreadInv(t, s.threads[t], s.reqs, s.conn);
    }
  }

  // ------------------------------------------------ steps that touch no request

  // What a step that touches no request says about its thread: it keeps its request, if it has one ...
  ghost predicate PcMoves(pc: Pc, pc': Pc) {
    if pc.On? then pc'.On? && pc'.r == pc.r && pc.st.Ending? && pc.st.e.EndFlush? &&
                   pc'.st.Ending? && pc'.st.e.EndCallback? && pc'.st.ek == pc.st.ek
    else !pc'.On?
  }

  // ... and about the connection.
  ghost predicate ConnMoves(c: Conn, c': Conn) {
    c'.devs == c.devs && c'.reqctr == c.reqctr
  }

  lemma ConnPc(t: Tid, c: Conn, pc: Pc, a: ConnAction, s: State)
    requires ConnCan(s, t, a) && pc == At(s.threads, t) && c == s.conn && PcConn(t, pc, c) && AbortInv(c)
    ensures var (c', pc') := ConnDo(t, c, pc, a);
            PcMoves(pc, pc') && ConnMoves(c, c') && PcConn(t, pc', c') && AbortInv(c') &&
            (EndsRequests(pc) ==> EndsRequests(pc') || a.EndExit?)
  {
  }

  lemma ConnOthers(t: Tid, u: Tid, pcu: Pc, c: Conn, pc: Pc, a: ConnAction, s: State)
    requires ConnCan(s, t, a) && pc == At(s.threads, t) && c == s.conn && PcConn(t, pc, c) && AbortInv(c)
    requires PcConn(u, pcu, c) && u != t
    ensures PcConn(u, pcu, ConnDo(t, c, pc, a).0)
  {
  }

  lemma MovedReq(q: Req, r: Rid, ths: map<Tid, Pc>, c: Conn, t: Tid, pc': Pc, c': Conn)
    requires ReqInv(q, r, ths, c) && PcMoves(At(ths, t), pc') && ConnMoves(c, c')
    requires EndsRequests(At(ths, t)) ==> EndsRequests(pc') || !NextCan(t, q)
    requires (q.list.BgQueue? ==> c'.abortPhase < 3) && (q.list.Pending? ==> c'.abortPhase < 4)
    ensures ReqInv(q, r, ths[t := pc'], c')
  {
    MovedListed(q, r, ths, c, t, pc');
    MovedRest(q, r, ths, c, t, pc');
  }

  lemma MovedListed(q: Req, r: Rid, ths: map<Tid, Pc>, c: Conn, t: Tid, pc': Pc)
    requires Listed(q, r, ths, c.devs) && PcMoves(At(ths, t), pc')
    requires EndsRequests(At(ths, t)) ==> EndsRequests(pc') || !NextCan(t, q)
    ensures Listed(q, r, ths[t := pc'], c.devs)
  {
  }

  lemma MovedRest(q: Req, r: Rid, ths: map<Tid, Pc>, c: Conn, t: Tid, pc': Pc)
    requires OnceOnly(q, r, ths) && Responsible(q, r, ths) && Accounted(q, r, ths) && Interruptible(q, r, ths)
    requires PcMoves(At(ths, t), pc')
    ensures OnceOnly(q, r, ths[t := pc']) && Responsible(q, r, ths[t := pc']) && Accounted(q, r, ths[t := pc'])
    ensures Interruptible(q, r, ths[t := pc'])
  {
  }

  // Background requests are counted at most once each.
  lemma ActiveNotQueued(s: State)
    requires ReqsInv(s)
    ensures ActiveReqs(s.reqs) !! BgQueued(s.reqs)
  {
    forall r | r in s.reqs ensures !(IsActive(s.reqs[r]) && IsBgQueued(s.reqs[r])) {
      assert Listed(s.reqs[r], r, s.threads, s.conn.devs);
    }
  }

  lemma FewBackground(s: State)
    requires ReqsInv(s) && s.conn.bg.num == s.conn.bg.active + |BgQueued(s.reqs)|
      && s.conn.bg.active == |ActiveReqs(s.reqs)|
    ensures s.conn.bg.num <= |s.reqs| && s.conn.bg.active <= |s.reqs|
  {
    var a, b := ActiveReqs(s.reqs), BgQueued(s.reqs);
    ActiveNotQueued(s);
    SubsetSize(a + b, s.reqs.Keys);
    SubsetSize(a, s.reqs.Keys);
    assert |a + b| == |a| + |b|;
  }

  // The last section of abort under bg_lock leaves bg_queue empty.
  lemma FlushedEmpty(s: State, t: Tid, r: Rid)
    requires Inv(s) && ConnCan(s, t, FlushExit) && At(s.threads, t).Flushing? && At(s.threads, t).abort && r in s.reqs
    ensures !s.reqs[r].list.BgQueue?
  {
    GetThread(s, t);
    FewBackground(s);
    assert s.reqs[r].list.BgQueue? ==> r in BgQueued(s.reqs);
  }

  // What a step that touches no request does to the whole state
  ghost predicate ConnMoved(s: State, t: Tid, pc': Pc, c': Conn) {
    && PcMoves(At(s.threads, t), pc') && ConnMoves(s.conn, c')
    && forall r | r in s.reqs ::
         && (EndsRequests(At(s.threads, t)) ==> EndsRequests(pc') || !NextCan(t, s.reqs[r]))
         && (s.reqs[r].list.BgQueue? ==> c'.abortPhase < 3) && (s.reqs[r].list.Pending? ==> c'.abortPhase < 4)
  }

  lemma ConnMovedReqs(s: State, t: Tid, pc': Pc, c': Conn)
    requires ReqsInv(s) && ConnMoved(s, t, pc', c')
    ensures ReqsInv(State(s.reqs, s.threads[t := pc'], c'))
  {
    forall r | r in s.reqs ensures ReqInv(s.reqs[r], r, s.threads[t := pc'], c') {
      MovedReq(s.reqs[r], r, s.threads, s.conn, t, pc', c');
    }
  }

  lemma ConnMovedRefs(s: State, t: Tid, pc': Pc, c': Conn)
    requires RefsInv(s) && PcMoves(At(s.threads, t), pc')
    ensures RefsInv(State(s.reqs, s.threads[t := pc'], c'))
  {
    forall r | r in s.reqs ensures Counted(s.reqs[r], r, s.threads[t := pc']) {
      assert Counted(s.reqs[r], r, s.threads);
      HoldersStep(s.threads, t, pc', r);
    }
  }

  // How far abort has come only changes where the lists it leaves behind are empty.
  lemma ConnPhase(t: Tid, c: Conn, pc: Pc, a: ConnAction, s: State, q: Req, r: Rid)
    requires ConnCan(s, t, a) && pc == At(s.threads, t) && c == s.conn && PcConn(t, pc, c) && AbortInv(c)
      && Numbered(q, c)
    requires r in s.reqs && s.reqs[r] == q && (a.FlushExit? && pc.Flushing? && pc.abort ==> !q.list.BgQueue?)
    ensures var (c', pc') := ConnDo(t, c, pc, a);
            (q.list.BgQueue? ==> c'.abortPhase < 3) && (q.list.Pending? ==> c'.abortPhase < 4) &&
            (EndsRequests(pc) ==> EndsRequests(pc') || !NextCan(t, q))
  {
  }

  lemma ConnReqs(s: State, t: Tid, a: ConnAction)
    requires Inv(s) && ConnCan(s, t, a)
    ensures ReqsInv(Next(s, t, OnConn(a))) && RefsInv(Next(s, t, OnConn(a)))
  {
    var pc, c := At(s.threads, t), s.conn;
    var (c', pc') := ConnDo(t, c, pc, a);
    GetThread(s, t);
    ConnPc(t, c, pc, a, s);
    forall r | r in s.reqs
      ensures (s.reqs[r].list.BgQueue? ==> c'.abortPhase < 3) && (s.reqs[r].list.Pending? ==> c'.abortPhase < 4)
      ensures EndsRequests(pc) ==> EndsRequests(pc') || !NextCan(t, s.reqs[r])
    {
      assert ReqInv(s.reqs[r], r, s.threads, c);
      if a.FlushExit? && pc.Flushing? && pc.abort {
        FlushedEmpty(s, t, r);
      }
      ConnPhase(t, c, pc, a, s, s.reqs[r], r);
    }
    ConnMovedReqs(s, t, pc', c');
    ConnMovedRefs(s, t, pc', c');
  }

  lemma ConnThreads(s: State, t: Tid, a: ConnAction)
    requires Inv(s) && ConnCan(s, t, a)
    ensures ThreadsInv(Next(s, t, OnConn(a)))
  {
    var pc, c := At(s.threads, t), s.conn;
    var (c', pc') := ConnDo(t, c, pc, a);
    var s' := Next(s, t, OnConn(a));
    GetThread(s, t);
    ConnPc(t, c, pc, a, s);
    forall u | u in s'.threads ensures ThreadInv(u, s'.threads[u], s.reqs, c') {
      if u != t {
        assert ThreadInv(u, s.threads[u], s.reqs, c);
        ConnOthers(t, u, s.threads[u], c, pc, a, s);
      }
    }
  }

  // What such a step does to the counters ...
  lemma ConnBg(s: State, t: Tid, a: ConnAction, c: Conn, pc: Pc)
    requires ConnCan(s, t, a) && pc == At(s.threads, t) && c == s.conn && BlockedOk(c.bg) && c.bg.num < UINT_MAX
    ensures var (c', pc') := ConnDo(t, c, pc, a);
            c'.bg.num == c.bg.num && c'.bg.active == c.bg.active && BlockedOk(c'.bg) &&
            c'.numWaiting - B(pc'.Getting?) == c.numWaiting - B(pc.Getting?)
  {
    match a
    case AbortBg =>
    case SetMaxBackground(_) =>
    case InitLimits(_) =>
    case FlushExit =>
    case _ =>
  }

  // ... and to bg_lock
  lemma ConnLock(s: State, t: Tid, a: ConnAction, c: Conn, pc: Pc)
    requires ConnCan(s, t, a) && pc == At(s.threads, t) && c == s.conn
    requires c.bg.lock.Thread? ==> HoldsBgLock(At(s.threads, c.bg.lock.id))
    ensures var (c', pc') := ConnDo(t, c, pc, a);
            c'.bg.lock.Thread? ==> HoldsBgLock(At(s.threads[t := pc'], c'.bg.lock.id))
  {
    match a
    case AbortBg =>
    case FlushExit =>
    case _ =>
  }

  lemma ConnCounts(s: State, t: Tid, a: ConnAction)
    requires ConnInv(s) && ReqsInv(s) && PcConn(t, At(s.threads, t), s.conn) && ConnCan(s, t, a)
    ensures ConnInv(Next(s, t, OnConn(a)))
  {
    var pc, c := At(s.threads, t), s.conn;
    var (c', pc') := ConnDo(t, c, pc, a);
    ConnPc(t, c, pc, a, s);
    GettersStep(s.threads, t, pc');
    FewBackground(s);
    ConnBg(s, t, a, c, pc);
    ConnLock(s, t, a, c, pc);
  }

  lemma ConnKeeps(s: State, t: Tid, a: ConnAction)
    requires Inv(s) && ConnCan(s, t, a)
    ensures Inv(Next(s, t, OnConn(a)))
  {
    ConnReqs(s, t, a);
    ConnThreads(s, t, a);
    GetThread(s, t);
    ConnCounts(s, t, a);
  }

  // ------------------------------------------------ allocating and freeing

  lemma NoneOn(s: State, r: Rid)
    requires Inv(s) && r !in s.reqs
    ensures |Holders(s.threads, r)| == 0
  {
    forall t | t in s.threads ensures !Holds(s.threads[t], r) {
      assert ThreadInv(t, s.threads[t], s.reqs, s.conn);
    }
    assert Holders(s.threads, r) == {};
  }

  function Allocated(s: State, t: Tid, r: Rid, kind: Kind, q: Req): State {
    State(s.reqs[r := q], s.threads[t := On(r, Alloced(kind))], s.conn)
  }

  lemma AllocReqs(s: State, t: Tid, r: Rid, kind: Kind, q: Req)
    requires ReqsInv(s) && r !in s.reqs && (At(s.threads, t).Idle? || At(s.threads, t).Getting?)
    requires q == NewReq(t, q.f.waiting, kind.Background?, q.f.force, q.f.isreply, q.f.async)
    ensures ReqsInv(Allocated(s, t, r, kind, q))
  {
    var pc' := On(r, Alloced(kind));
    forall x | x in s.reqs ensures ReqInv(s.reqs[x], x, s.threads[t := pc'], s.conn) {
      OtherReqKeeps(s.reqs[x], x, s.threads, s.conn, t, pc', s.conn);
    }
  }

  lemma AllocRefs(s: State, t: Tid, r: Rid, kind: Kind, q: Req)
    requires RefsInv(s) && r !in s.reqs && !At(s.threads, t).On? && |Holders(s.threads, r)| == 0
    requires q.count == 1 && q.list.NoList?
    ensures RefsInv(Allocated(s, t, r, kind, q))
  {
    forall x | x in s.reqs || x == r ensures Counted(s.reqs[r := q][x], x, s.threads[t := On(r, Alloced(kind))]) {
      HoldersStep(s.threads, t, On(r, Alloced(kind)), x);
      if x != r {
        assert Counted(s.reqs[x], x, s.threads);
      }
    }
  }

  lemma AllocThreads(s: State, t: Tid, r: Rid, kind: Kind, q: Req)
    requires ThreadsInv(s) && r !in s.reqs && Fresh(t, q)
    requires q.f.background <==> kind.Background?
    requires (kind.Notify? ==> !q.f.isreply) && (!kind.Background? ==> q.f.waiting)
    ensures ThreadsInv(Allocated(s, t, r, kind, q))
  {
    var s' := Allocated(s, t, r, kind, q);
    forall u | u in s'.threads ensures ThreadInv(u, s'.threads[u], s'.reqs, s'.conn) {
      if u != t {
        assert ThreadInv(u, s.threads[u], s.reqs, s.conn);
      }
    }
  }

  lemma AllocConn(s: State, t: Tid, r: Rid, kind: Kind, q: Req)
    requires ConnInv(s) && r !in s.reqs && |s.reqs| + 1 < UINT_MAX && q.list.NoList? && q.unique == 0
    requires var pc := At(s.threads, t); (pc.Idle? && !q.f.waiting) || (pc.Getting? && q.f.waiting)
    ensures ConnInv(Allocated(s, t, r, kind, q))
  {
    GettersStep(s.threads, t, On(r, Alloced(kind)));
    CountsStep(s.reqs, r, q);
  }

  // t, so far without a request, now has the new request q.
  lemma AllocKeeps(s: State, t: Tid, r: Rid, kind: Kind, q: Req)
    requires Inv(s) && r !in s.reqs && |s.reqs| + 1 < UINT_MAX
    requires var pc := At(s.threads, t); (pc.Idle? && !q.f.waiting) || (pc.Getting? && q.f.waiting)
    requires q == NewReq(t, q.f.waiting, kind.Background?, q.f.force, q.f.isreply, q.f.async)
    requires (kind.Notify? ==> !q.f.isreply) && (!kind.Background? ==> q.f.waiting)
    ensures Inv(Allocated(s, t, r, kind, q))
  {
    NoneOn(s, r);
    AllocReqs(s, t, r, kind, q);
    AllocRefs(s, t, r, kind, q);
    AllocThreads(s, t, r, kind, q);
    AllocConn(s, t, r, kind, q);
  }

  // A request whose last reference is gone is in no count and on no list.
  lemma Unused(q: Req, r: Rid, ths: map<Tid, Pc>, c: Conn)
    requires ReqInv(q, r, ths, c) && Counted(q, r, ths) && q.count == 0
    ensures !IsActive(q) && !IsBgQueued(q) && q.list.NoList? && !q.onIntr
  {
    if q.h.carrier.Thread? {
      HoldersStep(ths, q.h.carrier.id, At(ths, q.h.carrier.id), r);
    }
    if q.h.completer.Thread? {
      HoldersStep(ths, q.h.completer.id, At(ths, q.h.completer.id), r);
    }
  }

  lemma MinusCounts(reqs: map<Rid, Req>, r: Rid)
    requires r in reqs
    ensures |WaitingReqs(reqs - {r})| == |WaitingReqs(reqs)| - B(IsWaiting(reqs[r]))
    ensures |ActiveReqs(reqs - {r})| == |ActiveReqs(reqs)| - B(IsActive(reqs[r]))
    ensures |BgQueued(reqs - {r})| == |BgQueued(reqs)| - B(IsBgQueued(reqs[r]))
    ensures |reqs - {r}| <= |reqs|
  {
    WhereMinus(reqs, IsWaiting, r);
    WhereMinus(reqs, IsActive, r);
    WhereMinus(reqs, IsBgQueued, r);
    SubsetSize((reqs - {r}).Keys, reqs.Keys);
  }

  function Freed(s: State, t: Tid, r: Rid, pc': Pc): State { State(s.reqs - {r}, s.threads[t := pc'], s.conn) }

  lemma FreeReqs(s: State, t: Tid, r: Rid, pc': Pc)
    requires ReqsInv(s) && !pc'.On? && At(s.threads, t).On? && At(s.threads, t).r == r
    requires EndsRequests(At(s.threads, t)) ==> EndsRequests(pc')
    ensures ReqsInv(Freed(s, t, r, pc'))
  {
    forall x | x in s.reqs && x != r ensures ReqInv(s.reqs[x], x, s.threads[t := pc'], s.conn) {
      OtherReqKeeps(s.reqs[x], x, s.threads, s.conn, t, pc', s.conn);
    }
  }

  lemma FreeRefs(s: State, t: Tid, r: Rid, pc': Pc)
    requires RefsInv(s) && !pc'.On? && At(s.threads, t).On? && At(s.threads, t).r == r
    ensures RefsInv(Freed(s, t, r, pc'))
  {
    forall x | x in s.reqs && x != r ensures Counted(s.reqs[x], x, s.threads[t := pc']) {
      assert Counted(s.reqs[x], x, s.threads);
      HoldersStep(s.threads, t, pc', x);
    }
  }

  // Only the thread that frees r is still on it.
  lemma FreedAlone(s: State, t: Tid, u: Tid, r: Rid)
    requires u in s.threads && u != t && At(s.threads, t).On? && At(s.threads, t).r == r && r in s.reqs
    requires At(s.threads, t).st.Putting? && At(s.threads, t).st.p.FreeReq?
    requires ThreadInv(t, At(s.threads, t), s.reqs, s.conn) && ThreadInv(u, s.threads[u], s.reqs, s.conn)
    requires Counted(s.reqs[r], r, s.threads)
    ensures !(s.threads[u].On? && s.threads[u].r == r)
  {
    HoldersStep(s.threads, u, s.threads[u], r);
  }

  lemma FreeThreads(s: State, t: Tid, r: Rid, pc': Pc)
    requires ThreadsInv(s) && t in s.threads && s.threads[t].On? && s.threads[t].r == r && r in s.reqs
    requires s.threads[t].st.Putting? && s.threads[t].st.p.FreeReq? && Counted(s.reqs[r], r, s.threads)
    requires !pc'.On? && PcConn(t, pc', s.conn)
    ensures ThreadsInv(Freed(s, t, r, pc'))
  {
    var s' := Freed(s, t, r, pc');
    assert ThreadInv(t, s.threads[t], s.reqs, s.conn);
    forall u | u in s'.threads ensures ThreadInv(u, s'.threads[u], s'.reqs, s'.conn) {
      if u != t {
        assert ThreadInv(u, s.threads[u], s.reqs, s.conn);
        FreedAlone(s, t, u, r);
      }
    }
  }

  lemma FreeConn(s: State, t: Tid, r: Rid, pc': Pc)
    requires ConnInv(s) && At(s.threads, t).On? && r in s.reqs && !pc'.Getting? && !HoldsBgLock(At(s.threads, t))
    requires !IsActive(s.reqs[r]) && !IsBgQueued(s.reqs[r]) && !s.reqs[r].f.waiting
    ensures ConnInv(Freed(s, t, r, pc'))
  {
    GettersStep(s.threads, t, pc');
    MinusCounts(s.reqs, r);
  }

  lemma FreeMeans(s: State, t: Tid)
    requires WideCan(s, t, Freeing)
    ensures var pc := At(s.threads, t); WideDo(s, t, Freeing) == Freed(s, t, pc.r, AfterPut(pc.st.pk))
  {
  }

  lemma FreeKeeps(s: State, t: Tid, r: Rid, k: Then)
    requires Inv(s) && t in s.threads && s.threads[t] == On(r, Putting(FreeReq, k)) && r in s.reqs
    ensures Inv(Freed(s, t, r, AfterPut(k)))
  {
    GetReady(s, t, r);
    assert Counted(s.reqs[r], r, s.threads);
    Unused(s.reqs[r], r, s.threads, s.conn);
    FreeReqs(s, t, r, AfterPut(k));
    FreeRefs(s, t, r, AfterPut(k));
    FreeThreads(s, t, r, AfterPut(k));
    FreeConn(s, t, r, AfterPut(k));
  }

  // ------------------------------------------------ taking a pending request

  lemma TakeFair(t: Tid, c: Conn, r: Rid, d: Did, q: Req)
    requires OpenDev(c, d) && q.list.Pending? && Ready(t, c, Idle, r, q)
    ensures Fair(t, c, Idle, r, q, Out(c, On(r, Taken(d)), TakeReq(q, t)))
  {
  }

  lemma TakeSound(t: Tid, ths: map<Tid, Pc>, c: Conn, r: Rid, d: Did, q: Req)
    requires OpenDev(c, d) && q.list.Pending? && At(ths, t).Idle? && Ready(t, c, At(ths, t), r, q)
      && ReqInv(q, r, ths, c)
    ensures ReqInv(TakeReq(q, t), r, ths[t := On(r, Taken(d))], c) && StageOk(t, Taken(d), TakeReq(q, t), c.devs)
  {
  }

  lemma TakeOthers(t: Tid, u: Tid, stu: Stage, devs: map<Did, Dev>, q: Req)
    requires q.list.Pending? && q.f.pending && StageOk(u, stu, q, devs) && !q.f.finished && !q.f.priv && q.count >= 1
    ensures StageOk(u, stu, TakeReq(q, t), devs)
  {
  }

  lemma TakeLeaves(t: Tid, ths: map<Tid, Pc>, c: Conn, r: Rid, d: Did, q: Req)
    requires OpenDev(c, d) && q.list.Pending? && At(ths, t).Idle? && Ready(t, c, At(ths, t), r, q)
      && ReqInv(q, r, ths, c)
    ensures Leaves(t, ths, c, r, q, Proceed, Out(c, On(r, Taken(d)), TakeReq(q, t)))
  {
    TakeFair(t, c, r, d, q);
    TakeSound(t, ths, c, r, d, q);
  }

  lemma TakeAllOthers(s: State, t: Tid, r: Rid)
    requires Inv(s) && r in s.reqs && s.reqs[r].list.Pending? && At(s.threads, t).Idle?
    ensures forall u | u in s.threads && s.threads[u].On? && s.threads[u].r == r ::
              StageOk(u, s.threads[u].st, TakeReq(s.reqs[r], t), s.conn.devs)
  {
    GetReady(s, t, r);
    forall u | u in s.threads && s.threads[u].On? && s.threads[u].r == r
      ensures StageOk(u, s.threads[u].st, TakeReq(s.reqs[r], t), s.conn.devs)
    {
      assert ThreadInv(u, s.threads[u], s.reqs, s.conn);
      TakeOthers(t, u, s.threads[u].st, s.conn.devs, s.reqs[r]);
    }
  }

  lemma TakeKeeps(s: State, t: Tid, d: Did, r: Rid)
    requires Inv(s) && OpenDev(s.conn, d) && r in s.reqs && s.reqs[r].list.Pending? && At(s.threads, t).Idle?
    ensures Inv(After(s, t, r, Out(s.conn, On(r, Taken(d)), TakeReq(s.reqs[r], t))))
  {
    var o := Out(s.conn, On(r, Taken(d)), TakeReq(s.reqs[r], t));
    GetReady(s, t, r);
    TakeLeaves(t, s.threads, s.conn, r, d, s.reqs[r]);
    LocalReqs(s, t, r, Proceed, o);
    LocalRefs(s, t, r, Proceed, o);
    TakeAllOthers(s, t, r);
    LocalThreads(s, t, r, Proceed, o);
    LocalConn(s, t, r, o);
    LocalIds(s, t, r, o);
  }
}
