// The inductive invariant of RequestLifecycle.
module LifecycleInvariant {
  import opened Counting
  import opened RequestLifecycle

  // ------------------------------------------------- what one request keeps

  // The thread that owns the reference of the list the request was last on.
  predicate Carrying(pc: Pc, r: Rid) {
    pc.On? && pc.r == r &&
    (pc.st.Taken? || pc.st.Copy? || pc.st.CopyDone? || (pc.st.Ending? && pc.st.e.EndTest?))
  }

  predicate CopyingOn(pc: Pc, r: Rid, d: Did) {
    pc.On? && pc.r == r && ((pc.st.Copy? && pc.st.cd == d) || (pc.st.CopyDone? && pc.st.dd == d))
  }

  // In fuse_request_end, after setting FR_FINISHED.
  predicate Completing(pc: Pc, r: Rid) { pc.On? && pc.r == r && pc.st.Ending? && !pc.st.e.EndTest? }

  // ... before unlinking the interrupt
  predicate Unlinking(pc: Pc, r: Rid) {
    pc.On? && pc.r == r && pc.st.Ending? && (pc.st.e.EndIntr? || pc.st.e.EndUnlink?)
  }

  // ... before uncounting a background request
  predicate Uncounting(pc: Pc, r: Rid) {
    pc.On? && pc.r == r && pc.st.Ending? && (pc.st.e.EndIntr? || pc.st.e.EndUnlink? || pc.st.e.EndBody?)
  }

  predicate LastPutting(pc: Pc, r: Rid) { pc.On? && pc.r == r && pc.st.Putting? && !pc.st.p.DropRef? }

  // A thread that has or will have a to_end list to empty
  predicate EndsRequests(pc: Pc) {
    pc.AbortDevs? || pc.AbortFiq? || pc.NextReq? || (pc.Flushing? && pc.abort) ||
    (pc.On? && ((pc.st.Ending? && pc.st.ek.NextToEnd?) || (pc.st.Putting? && pc.st.pk.NextToEnd?)))
  }

  // What the list a request is on says about it
  ghost predicate Listed(q: Req, r: Rid, ths: map<Tid, Pc>, devs: map<Did, Dev>) {
    match q.list
    case NoList => !q.f.sent
    case BgQueue =>
      q.f.background && q.f.pending && q.unique == 0 && !q.f.finished && !q.f.sent && !q.f.priv && !q.f.aborted &&
      !q.f.locked && q.h.carrier.Nobody? && !q.f.interrupted
    case Pending =>
      q.f.pending && !q.f.finished && !q.f.sent && !q.f.priv && !q.f.aborted && !q.f.locked && q.h.carrier.Nobody?
    case Io(d) =>
      !q.f.pending && !q.f.finished && !q.f.sent && !q.f.priv && d in devs &&
      q.h.carrier.Thread? && CopyingOn(At(ths, q.h.carrier.id), r, d)
    case Processing(d) =>
      !q.f.pending && !q.f.finished && q.f.sent && q.f.isreply && !q.f.priv && !q.f.aborted && !q.f.locked &&
      q.h.carrier.Nobody? && d in devs && devs[d].open && devs[d].connected
    case ToEnd(t) => !q.f.pending && (!q.f.priv ==> !q.f.finished && q.h.carrier.Nobody?) && EndsRequests(At(ths, t))
  }

  // Flags and history of one request
  ghost predicate Flagged(q: Req, r: Rid, ths: map<Tid, Pc>) {
    && (q.f.finished ==> !q.f.pending && !q.f.sent && (q.list.NoList? || (q.list.ToEnd? && q.f.priv)))
    && (q.f.sent ==> !q.f.pending && (q.list.Processing? || q.list.ToEnd?))
    && (q.f.priv ==> q.f.aborted && !q.f.locked && !q.f.pending && !q.f.sent && (q.list.NoList? || q.list.ToEnd?))
  }

  // FR_FINISHED is set once, and the end callback runs once after it
  ghost predicate OnceOnly(q: Req, r: Rid, ths: map<Tid, Pc>) {
    && q.h.completions == (if q.f.finished then 1 else 0)
    && (!q.f.finished ==> q.h.callbacks == 0)
    && (q.f.finished ==>
          q.h.completer.Thread? &&
          q.h.callbacks == if q.f.async && !Completing(At(ths, q.h.completer.id), r) then 1 else 0)
  }

  // Someone will still complete an unfinished request, and someone frees an unused one
  ghost predicate Responsible(q: Req, r: Rid, ths: map<Tid, Pc>) {
    && (!q.f.finished && !q.f.pending ==>
          q.list.Processing? || (q.list.ToEnd? && !q.f.priv) ||
          (q.h.carrier.Thread? && Carrying(At(ths, q.h.carrier.id), r)))
    && (q.count <= 0 ==> q.count == 0 && q.h.freer.Thread? && LastPutting(At(ths, q.h.freer.id), r))
  }

  // FR_BACKGROUND is set exactly until the completing thread has uncounted the request
  ghost predicate Accounted(q: Req, r: Rid, ths: map<Tid, Pc>) {
    && (q.f.background && q.unique == 0 ==>
          q.f.pending && !q.f.finished && !q.f.priv && q.h.carrier.Nobody? && (q.list.BgQueue? || q.list.NoList?))
    && (q.f.background && q.unique != 0 && q.f.pending ==> q.list.Pending?)
    && (q.f.background && q.f.finished ==> q.h.completer.Thread? && Uncounting(At(ths, q.h.completer.id), r))
  }

  // Interrupts: none dangles, none is lost
  ghost predicate Interruptible(q: Req, r: Rid, ths: map<Tid, Pc>) {
    && (q.onIntr ==> q.f.interrupted && !q.f.pending && q.h.intrQueued)
    && (q.onIntr && q.f.finished ==> q.h.completer.Thread? && Unlinking(At(ths, q.h.completer.id), r))
    && (q.f.sent && q.f.interrupted && !q.h.intrQueued ==> CheckToCome(q, r, ths))
  }

  // One of the two racing threads has yet to make its check
  ghost predicate CheckToCome(q: Req, r: Rid, ths: map<Tid, Pc>) {
    || (q.h.owner.Thread? && SubmitterToCheck(At(ths, q.h.owner.id), r))
    || (q.h.sender.Thread? && ReaderToCheck(At(ths, q.h.sender.id), r))
  }

  predicate SubmitterToCheck(pc: Pc, r: Rid) {
    pc.On? && pc.r == r && ((pc.st.Waiting? && pc.st.w.CheckSent?) || pc.st.QueueIntr?)
  }

  predicate ReaderToCheck(pc: Pc, r: Rid) { pc.On? && pc.r == r && (pc.st.ReadSent? || pc.st.QueueIntr?) }

  // Ids of requests that expect a reply are even; abort has emptied the queues for good
  ghost predicate Numbered(q: Req, c: Conn) {
    && (q.f.isreply ==> Even(q.unique) && q.unique <= c.reqctr)
    && (q.f.isreply && q.unique == 0 ==> q.list.BgQueue? || (q.list.NoList? && q.f.pending))
    && (q.list.BgQueue? ==> c.abortPhase < 3)
    && (q.list.Pending? ==> c.abortPhase < 4)
  }

  predicate Even(n: nat) { n % FUSE_REQ_ID_STEP == 0 }

  ghost predicate ReqInv(q: Req, r: Rid, ths: map<Tid, Pc>, c: Conn) {
    && Listed(q, r, ths, c.devs) && Flagged(q, r, ths) && OnceOnly(q, r, ths) && Responsible(q, r, ths)
    && Accounted(q, r, ths) && Interruptible(q, r, ths) && Numbered(q, c)
  }

  // The reference count is the number of holders.
  ghost predicate Counted(q: Req, r: Rid, ths: map<Tid, Pc>) {
    q.count == ListRef(q.list) + |Holders(ths, r)|
  }

  // ------------------------------------------------- what one thread keeps

  // A thread in request_wait_answer for q
  predicate Waiter(t: Tid, q: Req) {
    !q.f.background && q.h.owner.Is(t) && (q.f.pending ==> q.list.Pending?)
  }

  // A thread copying q's arguments on device d
  predicate OnIo(t: Tid, d: Did, q: Req, devs: map<Did, Dev>) {
    d in devs && devs[d].open && q.h.carrier.Is(t) && !q.f.pending && !q.f.sent &&
    ((q.list.Io? && q.list.dev == d) || (q.f.priv && !devs[d].connected))
      && (devs[d].connected ==> !q.f.aborted && !q.f.priv)
  }

  // A request only its submitter knows
  predicate Fresh(t: Tid, q: Req) {
    q.list.NoList? && q.count == 1 && q.f.pending && q.unique == 0 && !q.f.finished && !q.f.sent && !q.f.priv
    && !q.f.aborted && !q.f.interrupted && !q.f.locked && !q.onIntr
    && q.h.carrier.Nobody? && q.h.owner.Is(t) && q.h.sender.Nobody?
  }

  // What thread t at stage st says about its request q
  predicate StageOk(t: Tid, st: Stage, q: Req, devs: map<Did, Dev>) {
    match st
    case Alloced(kind) =>
      Fresh(t, q) && (q.f.background <==> kind.Background?) && (!kind.Background? ==> q.f.waiting) &&
      (kind.Notify? ==> !q.f.isreply)
    case Waiting(w) => Waiter(t, q) && (w.CheckSent? ==> q.f.interrupted)
    case QueueIntr(backToWait) => !q.f.pending && (backToWait ==> Waiter(t, q))
    case Putting(p, _) =>
      !p.DropRef? ==> q.count == 0 && q.h.freer.Is(t) && (p.FreeReq? ==> !q.f.waiting)
    case Taken(d) =>
      d in devs && devs[d].open && q.h.carrier.Is(t) && q.list.NoList? && !q.f.pending && !q.f.finished && !q.f.sent &&
      !q.f.priv && !q.f.aborted && !q.f.locked
    case Copy(d, _, holding) => OnIo(t, d, q, devs) && (holding <==> q.f.locked)
    case CopyDone(d, _, _) => OnIo(t, d, q, devs)
    case ReadSent => !q.f.pending
    case IntrReply => !q.f.pending
    case Ending(e, _) =>
      if e.EndTest? then
        !q.f.pending && !q.f.sent && (q.f.priv || (!q.f.finished && q.h.carrier.Is(t) && q.list.NoList?))
      else
        q.f.finished && q.h.completer.Is(t) && (e.EndBody? ==> !q.onIntr) &&
        (e.EndFlush? || e.EndCallback? ==> !q.f.background)
  }

  // What thread t at pc says about the connection
  ghost predicate PcConn(t: Tid, pc: Pc, c: Conn) {
    && (HoldsBgLock(pc) ==> c.bg.lock.Is(t))
    && (pc.Flushing? && pc.abort ==> c.aborter.Is(t) && c.abortPhase == 2 && c.bg.max == UINT_MAX)
    && (pc.AbortDevs? ==>
          c.aborter.Is(t) && c.abortPhase == 1 && pc.left <= c.devs.Keys &&
          forall d | d in c.devs && c.devs[d].connected :: d in pc.left)
    && (pc.AbortFiq? ==> c.aborter.Is(t) && c.abortPhase == 3)
  }

  ghost predicate ThreadInv(t: Tid, pc: Pc, reqs: map<Rid, Req>, c: Conn) {
    PcConn(t, pc, c) && (pc.On? ==> pc.r in reqs && StageOk(t, pc.st, reqs[pc.r], c.devs))
  }

  // ------------------------------------------------- what the connection keeps

  ghost predicate AbortInv(c: Conn) {
    && c.abortPhase <= 4
    && (c.connected <==> c.abortPhase == 0)
    && (c.fiqConnected <==> c.abortPhase < 4)
    && (c.abortPhase >= 2 ==> forall d | d in c.devs :: !c.devs[d].connected)
  }

  // At every moment, whether or not bg_lock is held
  ghost predicate ConnInv(s: State) {
    var c := s.conn;
    && c.bg.num == c.bg.active + |BgQueued(s.reqs)|
    && c.bg.active == |ActiveReqs(s.reqs)|
    && BlockedOk(c.bg)
    && c.numWaiting == |WaitingReqs(s.reqs)| + |Getters(s.threads)|
    && |s.reqs| < UINT_MAX
    && (c.bg.lock.Thread? ==> HoldsBgLock(At(s.threads, c.bg.lock.id)))
    && AbortInv(c) && Even(c.reqctr)
  }

  // Requests that expect a reply have distinct ids
  ghost predicate DistinctIds(reqs: map<Rid, Req>) {
    forall r1, r2 | r1 in reqs && r2 in reqs && r1 != r2 && reqs[r1].f.isreply && reqs[r2].f.isreply ::
      reqs[r1].unique == reqs[r2].unique ==> reqs[r1].unique == 0
  }

  ghost predicate ReqsInv(s: State) { forall r | r in s.reqs :: ReqInv(s.reqs[r], r, s.threads, s.conn) }

  ghost predicate RefsInv(s: State) { forall r | r in s.reqs :: Counted(s.reqs[r], r, s.threads) }

  ghost predicate ThreadsInv(s: State) { forall t | t in s.threads :: ThreadInv(t, s.threads[t], s.reqs, s.conn) }

  ghost predicate Inv(s: State) { ConnInv(s) && ReqsInv(s) && RefsInv(s) && ThreadsInv(s) && DistinctIds(s.reqs) }

  // ---------------------------------------------------------- counting

  lemma HoldersStep(ths: map<Tid, Pc>, t: Tid, pc: Pc, r: Rid)
    ensures |Holders(ths[t := pc], r)| == |Holders(ths, r)| - B(Holds(At(ths, t), r)) + B(Holds(pc, r))
    ensures Holds(At(ths, t), r) ==> |Holders(ths, r)| >= 1
  {
    WhereStep(ths, (pc: Pc) => Holds(pc, r), t, pc);
  }

  lemma GettersStep(ths: map<Tid, Pc>, t: Tid, pc: Pc)
    ensures |Getters(ths[t := pc])| == |Getters(ths)| - B(At(ths, t).Getting?) + B(pc.Getting?)
  {
    WhereStep(ths, (pc: Pc) => pc.Getting?, t, pc);
  }

  lemma CountsStep(reqs: map<Rid, Req>, r: Rid, q: Req)
    ensures |WaitingReqs(reqs[r := q])| == |WaitingReqs(reqs)| - B(r in reqs && IsWaiting(reqs[r])) + B(IsWaiting(q))
    ensures |ActiveReqs(reqs[r := q])| == |ActiveReqs(reqs)| - B(r in reqs && IsActive(reqs[r])) + B(IsActive(q))
    ensures |BgQueued(reqs[r := q])| == |BgQueued(reqs)| - B(r in reqs && IsBgQueued(reqs[r])) + B(IsBgQueued(q))
    ensures |reqs[r := q]| == |reqs| + B(r !in reqs)
  {
    WhereStep(reqs, IsWaiting, r, q);
    WhereStep(reqs, IsActive, r, q);
    WhereStep(reqs, IsBgQueued, r, q);
    Drop(reqs.Keys, r);
    Drop(reqs[r := q].Keys, r);
    assert reqs[r := q].Keys - {r} == reqs.Keys - {r};
  }
}
