// Every step of RequestLifecycle on one request keeps the invariant.
module LifecycleSteps {
  import opened Counting
  import opened RequestLifecycle
  import opened LifecycleInvariant

  // What has to be shown of each step on one request, about its thread and that request only.

  // Counters move with the request.
  ghost predicate Balance(c: Conn, pc: Pc, q: Req, o: Out) {
    && o.c.bg.active == c.bg.active + B(IsActive(o.q)) - B(IsActive(q))
    && o.c.bg.num - o.c.bg.active == c.bg.num - c.bg.active + B(IsBgQueued(o.q)) - B(IsBgQueued(q))
    && o.c.numWaiting == c.numWaiting + B(IsWaiting(o.q)) - B(IsWaiting(q))
    && !pc.Getting? && !o.pc.Getting?
    && BlockedOk(o.c.bg)
  }

  // The connection changes only as a new holder of bg_lock may change it.
  ghost predicate MildConn(t: Tid, c: Conn, pc: Pc, o: Out) {
    && o.c.devs == c.devs && c.reqctr <= o.c.reqctr && Even(o.c.reqctr) && o.c.bg.max == c.bg.max
    && (if HoldsBgLock(o.pc) then (c.bg.lock.Nobody? || HoldsBgLock(pc)) && o.c.bg.lock.Is(t)
        else !HoldsBgLock(pc) && o.c.bg.lock == c.bg.lock)
    && o.c.aborter == c.aborter && o.c.abortPhase == c.abortPhase && o.c.connected == c.connected
    && o.c.fiqConnected == c.fiqConnected
  }

  ghost predicate MildReq(c: Conn, q: Req, o: Out) {
    o.q.f.isreply == q.f.isreply && (q.f.isreply ==> o.q.unique == q.unique || o.q.unique > c.reqctr)
  }

  // References move between the lists and the thread.
  ghost predicate RefBalance(pc: Pc, r: Rid, q: Req, o: Out) {
    o.q.count - ListRef(o.q.list) - B(Holds(o.pc, r)) == q.count - ListRef(q.list) - B(Holds(pc, r))
  }

  // What a step of t from pc on r may rely on
  ghost predicate Ready(t: Tid, c: Conn, pc: Pc, r: Rid, q: Req) {
    && (pc.On? && pc.r == r ==> StageOk(t, pc.st, q, c.devs)) && PcConn(t, pc, c)
    && q.count >= ListRef(q.list) + B(Holds(pc, r)) && (q.f.background && q.f.finished ==> q.unique != 0)
    && AbortInv(c) && Even(c.reqctr) && BlockedOk(c.bg)
  }

  // A request that two threads hold is neither fresh nor about to be freed.
  predicate Shared(st: Stage) { !st.Alloced? && (st.Putting? ==> st.p.DropRef?) }

  // What has to be shown about the counters ...
  ghost predicate Fair(t: Tid, c: Conn, pc: Pc, r: Rid, q: Req, o: Out) {
    Balance(c, pc, q, o) && MildConn(t, c, pc, o) && MildReq(c, q, o) && RefBalance(pc, r, q, o)
  }

  // ... and about the request and the thread
  ghost predicate Sound(t: Tid, ths: map<Tid, Pc>, r: Rid, o: Out) {
    && ReqInv(o.q, r, ths[t := o.pc], o.c) && PcConn(t, o.pc, o.c)
    && (o.pc.On? ==> o.pc.r == r && StageOk(t, o.pc.st, o.q, o.c.devs))
    && (EndsRequests(At(ths, t)) ==> EndsRequests(o.pc))
  }

  // ---- Submit

  lemma SubmitFair(t: Tid, c: Conn, r: Rid, kind: Kind, a: SubmitAction, q: Req)
    requires SubmitCan(c, kind, q, a) && Ready(t, c, On(r, Alloced(kind)), r, q)
    ensures Fair(t, c, On(r, Alloced(kind)), r, q, SubmitDo(t, c, r, kind, q, a))
  {
  }

  lemma SubmitSound(t: Tid, ths: map<Tid, Pc>, c: Conn, r: Rid, kind: Kind, a: SubmitAction, q: Req)
    requires SubmitCan(c, kind, q, a) && t in ths && ths[t] == On(r, Alloced(kind)) && Ready(t, c, ths[t], r, q)
      && ReqInv(q, r, ths, c)
    ensures Sound(t, ths, r, SubmitDo(t, c, r, kind, q, a))
  {
  }

  lemma SubmitOthers(t: Tid, u: Tid, stu: Stage, c: Conn, r: Rid, kind: Kind, a: SubmitAction, q: Req)
    requires SubmitCan(c, kind, q, a) && StageOk(t, Alloced(kind), q, c.devs) && StageOk(u, stu, q, c.devs) && t != u
      && Shared(stu)
    ensures StageOk(u, stu, SubmitDo(t, c, r, kind, q, a).q, c.devs)
  {
  }

  // ---- Wait

  lemma WaitFair(t: Tid, c: Conn, r: Rid, w: WaitPoint, a: WaitAction, q: Req)
    requires WaitCan(w, q, a) && Ready(t, c, On(r, Waiting(w)), r, q)
    ensures Fair(t, c, On(r, Waiting(w)), r, q, WaitDo(c, r, q, a))
  {
  }

  lemma WaitSound(t: Tid, ths: map<Tid, Pc>, c: Conn, r: Rid, w: WaitPoint, a: WaitAction, q: Req)
    requires WaitCan(w, q, a) && t in ths && ths[t] == On(r, Waiting(w)) && Ready(t, c, ths[t], r, q)
      && ReqInv(q, r, ths, c)
    ensures Sound(t, ths, r, WaitDo(c, r, q, a))
  {
  }

  lemma WaitOthers(t: Tid, u: Tid, stu: Stage, c: Conn, r: Rid, w: WaitPoint, a: WaitAction, q: Req)
    requires WaitCan(w, q, a) && StageOk(t, Waiting(w), q, c.devs) && StageOk(u, stu, q, c.devs) && t != u
      && Shared(stu)
    ensures StageOk(u, stu, WaitDo(c, r, q, a).q, c.devs)
  {
  }

  // ---- QueueIntr

  lemma QueueIntrFair(t: Tid, c: Conn, r: Rid, b: bool, q: Req)
    requires Ready(t, c, On(r, QueueIntr(b)), r, q)
    ensures Fair(t, c, On(r, QueueIntr(b)), r, q, QueueIntrDo(c, r, b, q))
  {
  }

  lemma QueueIntrSound(t: Tid, ths: map<Tid, Pc>, c: Conn, r: Rid, b: bool, q: Req)
    requires t in ths && ths[t] == On(r, QueueIntr(b)) && Ready(t, c, ths[t], r, q) && ReqInv(q, r, ths, c)
    ensures Sound(t, ths, r, QueueIntrDo(c, r, b, q))
  {
  }

  lemma QueueIntrOthers(t: Tid, u: Tid, stu: Stage, c: Conn, r: Rid, b: bool, q: Req)
    requires StageOk(t, QueueIntr(b), q, c.devs) && StageOk(u, stu, q, c.devs) && t != u && Shared(stu)
    ensures StageOk(u, stu, QueueIntrDo(c, r, b, q).q, c.devs)
  {
  }

  // ---- DropRef

  lemma DropRefFair(t: Tid, c: Conn, r: Rid, k: Then, q: Req)
    requires Ready(t, c, On(r, Putting(DropRef, k)), r, q)
    ensures Fair(t, c, On(r, Putting(DropRef, k)), r, q, DropRefDo(t, c, r, k, q))
  {
  }

  lemma DropRefSound(t: Tid, ths: map<Tid, Pc>, c: Conn, r: Rid, k: Then, q: Req)
    requires t in ths && ths[t] == On(r, Putting(DropRef, k)) && Ready(t, c, ths[t], r, q) && ReqInv(q, r, ths, c)
    ensures Sound(t, ths, r, DropRefDo(t, c, r, k, q))
  {
  }

  lemma DropRefOthers(t: Tid, u: Tid, stu: Stage, c: Conn, r: Rid, k: Then, q: Req)
    requires StageOk(t, Putting(DropRef, k), q, c.devs) && StageOk(u, stu, q, c.devs) && t != u && Shared(stu)
    ensures StageOk(u, stu, DropRefDo(t, c, r, k, q).q, c.devs)
  {
  }

  // ---- LastRef

  lemma LastRefFair(t: Tid, c: Conn, r: Rid, k: Then, q: Req)
    requires Ready(t, c, On(r, Putting(LastRef, k)), r, q)
    ensures Fair(t, c, On(r, Putting(LastRef, k)), r, q, LastRefDo(c, r, k, q))
  {
  }

  lemma LastRefSound(t: Tid, ths: map<Tid, Pc>, c: Conn, r: Rid, k: Then, q: Req)
    requires t in ths && ths[t] == On(r, Putting(LastRef, k)) && Ready(t, c, ths[t], r, q) && ReqInv(q, r, ths, c)
    ensures Sound(t, ths, r, LastRefDo(c, r, k, q))
  {
  }

  lemma LastRefOthers(t: Tid, u: Tid, stu: Stage, c: Conn, r: Rid, k: Then, q: Req)
    requires StageOk(t, Putting(LastRef, k), q, c.devs) && StageOk(u, stu, q, c.devs) && t != u && Shared(stu)
    ensures StageOk(u, stu, LastRefDo(c, r, k, q).q, c.devs)
  {
  }

  // ---- Taken

  lemma TakenFair(t: Tid, c: Conn, r: Rid, d: Did, tooLarge: bool, q: Req)
    requires Ready(t, c, On(r, Taken(d)), r, q)
    ensures Fair(t, c, On(r, Taken(d)), r, q, TakenDo(c, r, d, q, tooLarge))
  {
  }

  lemma TakenSound(t: Tid, ths: map<Tid, Pc>, c: Conn, r: Rid, d: Did, tooLarge: bool, q: Req)
    requires t in ths && ths[t] == On(r, Taken(d)) && Ready(t, c, ths[t], r, q) && ReqInv(q, r, ths, c)
    ensures Sound(t, ths, r, TakenDo(c, r, d, q, tooLarge))
  {
  }

  lemma TakenOthers(t: Tid, u: Tid, stu: Stage, c: Conn, r: Rid, d: Did, tooLarge: bool, q: Req)
    requires StageOk(t, Taken(d), q, c.devs) && StageOk(u, stu, q, c.devs) && t != u && Shared(stu)
    ensures StageOk(u, stu, TakenDo(c, r, d, q, tooLarge).q, c.devs)
  {
  }

  // ---- Copy

  lemma CopyFair(t: Tid, c: Conn, r: Rid, d: Did, write: bool, holding: bool, a: CopyAction, q: Req)
    requires CopyCan(holding, a) && Ready(t, c, On(r, Copy(d, write, holding)), r, q)
    ensures Fair(t, c, On(r, Copy(d, write, holding)), r, q, CopyDo(c, r, d, write, q, a))
  {
    var o := CopyDo(c, r, d, write, q, a);
    assert MildConn(t, c, On(r, Copy(d, write, holding)), o);
  }

  lemma CopyListed(t: Tid, ths: map<Tid, Pc>, c: Conn, r: Rid, d: Did, write: bool, holding: bool, a: CopyAction,
                   q: Req)
    requires t in ths && ths[t] == On(r, Copy(d, write, holding)) && StageOk(t, ths[t].st, q, c.devs)
    requires Listed(q, r, ths, c.devs) && Flagged(q, r, ths) && Numbered(q, c)
    ensures var o := CopyDo(c, r, d, write, q, a);
            Listed(o.q, r, ths[t := o.pc], o.c.devs) && Flagged(o.q, r, ths[t := o.pc]) && Numbered(o.q, o.c)
  {
  }

  lemma CopyRest(t: Tid, ths: map<Tid, Pc>, c: Conn, r: Rid, d: Did, write: bool, holding: bool, a: CopyAction, q: Req)
    requires t in ths && ths[t] == On(r, Copy(d, write, holding))
    requires OnceOnly(q, r, ths) && Responsible(q, r, ths) && Accounted(q, r, ths) && Interruptible(q, r, ths)
    ensures var o := CopyDo(c, r, d, write, q, a);
            OnceOnly(o.q, r, ths[t := o.pc]) && Responsible(o.q, r, ths[t := o.pc])
            && Accounted(o.q, r, ths[t := o.pc]) && Interruptible(o.q, r, ths[t := o.pc])
  {
  }

  lemma CopyPc(t: Tid, ths: map<Tid, Pc>, c: Conn, r: Rid, d: Did, write: bool, holding: bool, a: CopyAction, q: Req)
    requires CopyCan(holding, a) && t in ths && ths[t] == On(r, Copy(d, write, holding))
      && StageOk(t, ths[t].st, q, c.devs)
    ensures var o := CopyDo(c, r, d, write, q, a);
            o.pc.On? && o.pc.r == r && StageOk(t, o.pc.st, o.q, o.c.devs) && !EndsRequests(At(ths, t))
              && PcConn(t, o.pc, o.c)
  {
  }

  lemma CopySound(t: Tid, ths: map<Tid, Pc>, c: Conn, r: Rid, d: Did, write: bool, holding: bool, a: CopyAction, q: Req)
    requires CopyCan(holding, a) && t in ths && ths[t] == On(r, Copy(d, write, holding)) && Ready(t, c, ths[t], r, q)
      && ReqInv(q, r, ths, c)
    ensures Sound(t, ths, r, CopyDo(c, r, d, write, q, a))
  {
    CopyListed(t, ths, c, r, d, write, holding, a, q);
    CopyRest(t, ths, c, r, d, write, holding, a, q);
    CopyPc(t, ths, c, r, d, write, holding, a, q);
  }

  lemma CopyOthers(t: Tid, u: Tid, stu: Stage, c: Conn, r: Rid, d: Did, write: bool, holding: bool, a: CopyAction,
                   q: Req)
    requires CopyCan(holding, a) && StageOk(t, Copy(d, write, holding), q, c.devs) && StageOk(u, stu, q, c.devs)
      && t != u && Shared(stu)
    ensures StageOk(u, stu, CopyDo(c, r, d, write, q, a).q, c.devs)
  {
  }

  // ---- CopyDone

  lemma CopyDoneFair(t: Tid, c: Conn, r: Rid, d: Did, wrote: bool, ok: bool, q: Req)
    requires Ready(t, c, On(r, CopyDone(d, wrote, ok)), r, q)
    ensures Fair(t, c, On(r, CopyDone(d, wrote, ok)), r, q, CopyDoneDo(t, c, r, d, wrote, ok, q))
  {
  }

  lemma CopyDoneSound(t: Tid, ths: map<Tid, Pc>, c: Conn, r: Rid, d: Did, wrote: bool, ok: bool, q: Req)
    requires t in ths && ths[t] == On(r, CopyDone(d, wrote, ok)) && Ready(t, c, ths[t], r, q) && ReqInv(q, r, ths, c)
    ensures Sound(t, ths, r, CopyDoneDo(t, c, r, d, wrote, ok, q))
  {
  }

  lemma CopyDoneOthers(t: Tid, u: Tid, stu: Stage, c: Conn, r: Rid, d: Did, wrote: bool, ok: bool, q: Req)
    requires StageOk(t, CopyDone(d, wrote, ok), q, c.devs) && StageOk(u, stu, q, c.devs) && t != u && Shared(stu)
    ensures StageOk(u, stu, CopyDoneDo(t, c, r, d, wrote, ok, q).q, c.devs)
  {
  }

  // ---- ReadSent

  lemma ReadSentFair(t: Tid, c: Conn, r: Rid, q: Req)
    requires Ready(t, c, On(r, ReadSent), r, q)
    ensures Fair(t, c, On(r, ReadSent), r, q, ReadSentDo(c, r, q))
  {
  }

  lemma ReadSentSound(t: Tid, ths: map<Tid, Pc>, c: Conn, r: Rid, q: Req)
    requires t in ths && ths[t] == On(r, ReadSent) && Ready(t, c, ths[t], r, q) && ReqInv(q, r, ths, c)
    ensures Sound(t, ths, r, ReadSentDo(c, r, q))
  {
  }

  lemma ReadSentOthers(t: Tid, u: Tid, stu: Stage, c: Conn, r: Rid, q: Req)
    requires StageOk(t, ReadSent, q, c.devs) && StageOk(u, stu, q, c.devs) && t != u && Shared(stu)
    ensures StageOk(u, stu, ReadSentDo(c, r, q).q, c.devs)
  {
  }

  // ---- IntrReply

  lemma IntrReplyFair(t: Tid, c: Conn, r: Rid, error: int, q: Req)
    requires Ready(t, c, On(r, IntrReply), r, q)
    ensures Fair(t, c, On(r, IntrReply), r, q, IntrReplyDo(c, r, q, error))
  {
  }

  lemma IntrReplySound(t: Tid, ths: map<Tid, Pc>, c: Conn, r: Rid, error: int, q: Req)
    requires t in ths && ths[t] == On(r, IntrReply) && Ready(t, c, ths[t], r, q) && ReqInv(q, r, ths, c)
    ensures Sound(t, ths, r, IntrReplyDo(c, r, q, error))
  {
  }

  lemma IntrReplyOthers(t: Tid, u: Tid, stu: Stage, c: Conn, r: Rid, error: int, q: Req)
    requires StageOk(t, IntrReply, q, c.devs) && StageOk(u, stu, q, c.devs) && t != u && Shared(stu)
    ensures StageOk(u, stu, IntrReplyDo(c, r, q, error).q, c.devs)
  {
  }

  // ---- EndTest

  lemma EndTestFair(t: Tid, c: Conn, r: Rid, k: Then, q: Req)
    requires Ready(t, c, On(r, Ending(EndTest, k)), r, q)
    ensures Fair(t, c, On(r, Ending(EndTest, k)), r, q, EndTestDo(t, c, r, k, q))
  {
  }

  lemma EndTestSound(t: Tid, ths: map<Tid, Pc>, c: Conn, r: Rid, k: Then, q: Req)
    requires t in ths && ths[t] == On(r, Ending(EndTest, k)) && Ready(t, c, ths[t], r, q) && ReqInv(q, r, ths, c)
    ensures Sound(t, ths, r, EndTestDo(t, c, r, k, q))
  {
  }

  lemma EndTestOthers(t: Tid, u: Tid, stu: Stage, c: Conn, r: Rid, k: Then, q: Req)
    requires StageOk(t, Ending(EndTest, k), q, c.devs) && StageOk(u, stu, q, c.devs) && t != u && Shared(stu)
    ensures StageOk(u, stu, EndTestDo(t, c, r, k, q).q, c.devs)
  {
  }

  // ---- EndIntr

  lemma EndIntrFair(t: Tid, c: Conn, r: Rid, e: EndPoint, k: Then, q: Req)
    requires (e.EndIntr? || e.EndUnlink?) && Ready(t, c, On(r, Ending(e, k)), r, q)
    ensures Fair(t, c, On(r, Ending(e, k)), r, q, EndIntrDo(c, r, e, k, q))
  {
  }

  lemma EndIntrSound(t: Tid, ths: map<Tid, Pc>, c: Conn, r: Rid, e: EndPoint, k: Then, q: Req)
    requires (e.EndIntr? || e.EndUnlink?) && t in ths && ths[t] == On(r, Ending(e, k)) && Ready(t, c, ths[t], r, q)
      && ReqInv(q, r, ths, c)
    ensures Sound(t, ths, r, EndIntrDo(c, r, e, k, q))
  {
  }

  lemma EndIntrOthers(t: Tid, u: Tid, stu: Stage, c: Conn, r: Rid, e: EndPoint, k: Then, q: Req)
    requires (e.EndIntr? || e.EndUnlink?) && StageOk(t, Ending(e, k), q, c.devs) && StageOk(u, stu, q, c.devs)
      && t != u && Shared(stu)
    ensures StageOk(u, stu, EndIntrDo(c, r, e, k, q).q, c.devs)
  {
  }

  // ---- EndBody

  lemma EndBodyFair(t: Tid, c: Conn, r: Rid, k: Then, q: Req)
    requires EndBodyCan(c, q) && Ready(t, c, On(r, Ending(EndBody, k)), r, q)
    ensures Fair(t, c, On(r, Ending(EndBody, k)), r, q, EndBodyDo(t, c, r, k, q))
  {
  }

  lemma EndBodySound(t: Tid, ths: map<Tid, Pc>, c: Conn, r: Rid, k: Then, q: Req)
    requires EndBodyCan(c, q) && t in ths && ths[t] == On(r, Ending(EndBody, k)) && Ready(t, c, ths[t], r, q)
      && ReqInv(q, r, ths, c)
    ensures Sound(t, ths, r, EndBodyDo(t, c, r, k, q))
  {
  }

  lemma EndBodyOthers(t: Tid, u: Tid, stu: Stage, c: Conn, r: Rid, k: Then, q: Req)
    requires EndBodyCan(c, q) && StageOk(t, Ending(EndBody, k), q, c.devs) && StageOk(u, stu, q, c.devs) && t != u
      && Shared(stu)
    ensures StageOk(u, stu, EndBodyDo(t, c, r, k, q).q, c.devs)
  {
  }

  // ---- EndCallback

  lemma EndCallbackFair(t: Tid, c: Conn, r: Rid, k: Then, q: Req)
    requires Ready(t, c, On(r, Ending(EndCallback, k)), r, q)
    ensures Fair(t, c, On(r, Ending(EndCallback, k)), r, q, EndCallbackDo(c, r, k, q))
  {
  }

  lemma EndCallbackSound(t: Tid, ths: map<Tid, Pc>, c: Conn, r: Rid, k: Then, q: Req)
    requires t in ths && ths[t] == On(r, Ending(EndCallback, k)) && Ready(t, c, ths[t], r, q) && ReqInv(q, r, ths, c)
    ensures Sound(t, ths, r, EndCallbackDo(c, r, k, q))
  {
  }

  lemma EndCallbackOthers(t: Tid, u: Tid, stu: Stage, c: Conn, r: Rid, k: Then, q: Req)
    requires StageOk(t, Ending(EndCallback, k), q, c.devs) && StageOk(u, stu, q, c.devs) && t != u && Shared(stu)
    ensures StageOk(u, stu, EndCallbackDo(c, r, k, q).q, c.devs)
  {
  }

  // ---- Put

  lemma PutFair(t: Tid, c: Conn, r: Rid, p: PutPoint, k: Then, q: Req)
    requires !p.FreeReq? && Ready(t, c, On(r, Putting(p, k)), r, q)
    ensures Fair(t, c, On(r, Putting(p, k)), r, q, PutDo(t, c, r, p, k, q))
  {
    if p.DropRef? {
      DropRefFair(t, c, r, k, q);
    } else {
      LastRefFair(t, c, r, k, q);
    }
  }

  lemma PutSound(t: Tid, ths: map<Tid, Pc>, c: Conn, r: Rid, p: PutPoint, k: Then, q: Req)
    requires !p.FreeReq? && t in ths && ths[t] == On(r, Putting(p, k)) && Ready(t, c, ths[t], r, q)
      && ReqInv(q, r, ths, c)
    ensures Sound(t, ths, r, PutDo(t, c, r, p, k, q))
  {
    if p.DropRef? {
      DropRefSound(t, ths, c, r, k, q);
    } else {
      LastRefSound(t, ths, c, r, k, q);
    }
  }

  lemma PutOthers(t: Tid, u: Tid, stu: Stage, c: Conn, r: Rid, p: PutPoint, k: Then, q: Req)
    requires !p.FreeReq? && StageOk(t, Putting(p, k), q, c.devs) && StageOk(u, stu, q, c.devs) && t != u && Shared(stu)
    ensures StageOk(u, stu, PutDo(t, c, r, p, k, q).q, c.devs)
  {
    if p.DropRef? {
      DropRefOthers(t, u, stu, c, r, k, q);
    } else {
      LastRefOthers(t, u, stu, c, r, k, q);
    }
  }

  // ---- End

  lemma EndFair(t: Tid, c: Conn, r: Rid, e: EndPoint, k: Then, q: Req)
    requires EndCan(c, e, q) && Ready(t, c, On(r, Ending(e, k)), r, q)
    ensures Fair(t, c, On(r, Ending(e, k)), r, q, EndDo(t, c, r, e, k, q))
  {
    if e.EndTest? {
      EndTestFair(t, c, r, k, q);
    } else if e.EndBody? {
      EndBodyFair(t, c, r, k, q);
    } else if e.EndCallback? {
      EndCallbackFair(t, c, r, k, q);
    } else {
      EndIntrFair(t, c, r, e, k, q);
    }
  }

  lemma EndSound(t: Tid, ths: map<Tid, Pc>, c: Conn, r: Rid, e: EndPoint, k: Then, q: Req)
    requires EndCan(c, e, q) && t in ths && ths[t] == On(r, Ending(e, k)) && Ready(t, c, ths[t], r, q)
      && ReqInv(q, r, ths, c)
    ensures Sound(t, ths, r, EndDo(t, c, r, e, k, q))
  {
    if e.EndTest? {
      EndTestSound(t, ths, c, r, k, q);
    } else if e.EndBody? {
      EndBodySound(t, ths, c, r, k, q);
    } else if e.EndCallback? {
      EndCallbackSound(t, ths, c, r, k, q);
    } else {
      EndIntrSound(t, ths, c, r, e, k, q);
    }
  }

  lemma EndOthers(t: Tid, u: Tid, stu: Stage, c: Conn, r: Rid, e: EndPoint, k: Then, q: Req)
    requires EndCan(c, e, q) && StageOk(t, Ending(e, k), q, c.devs) && StageOk(u, stu, q, c.devs) && t != u
      && Shared(stu)
    ensures StageOk(u, stu, EndDo(t, c, r, e, k, q).q, c.devs)
  {
    if e.EndTest? {
      EndTestOthers(t, u, stu, c, r, k, q);
    } else if e.EndBody? {
      EndBodyOthers(t, u, stu, c, r, k, q);
    } else if e.EndCallback? {
      EndCallbackOthers(t, u, stu, c, r, k, q);
    } else {
      EndIntrOthers(t, u, stu, c, r, e, k, q);
    }
  }

  // ---- a thread without a request picks one

  lemma PickFair(t: Tid, c: Conn, r: Rid, a: PickAction, q: Req)
    requires PickCan(c, q, a) && Ready(t, c, Idle, r, q)
    ensures Fair(t, c, Idle, r, q, PickDo(t, c, r, q, a))
  {
  }

  lemma PickSound(t: Tid, ths: map<Tid, Pc>, c: Conn, r: Rid, a: PickAction, q: Req)
    requires PickCan(c, q, a) && At(ths, t).Idle? && Ready(t, c, At(ths, t), r, q) && ReqInv(q, r, ths, c)
    ensures ReqInv(PickDo(t, c, r, q, a).q, r, ths[t := PickDo(t, c, r, q, a).pc], c)
    ensures var o := PickDo(t, c, r, q, a); o.pc.On? ==> o.pc.r == r && StageOk(t, o.pc.st, o.q, o.c.devs)
  {
  }

  lemma PickOthers(t: Tid, u: Tid, stu: Stage, c: Conn, r: Rid, a: PickAction, q: Req)
    requires PickCan(c, q, a) && StageOk(u, stu, q, c.devs) && q.count >= ListRef(q.list)
    requires q.list.Processing? ==> !q.f.priv && !q.f.pending
    ensures StageOk(u, stu, PickDo(t, c, r, q, a).q, c.devs)
  {
  }

  lemma NextFair(t: Tid, c: Conn, r: Rid, releasing: bool, q: Req)
    requires NextCan(t, q) && Ready(t, c, NextReq(releasing), r, q)
    ensures Fair(t, c, NextReq(releasing), r, q, NextDo(t, c, r, releasing, q))
  {
  }

  lemma NextSound(t: Tid, ths: map<Tid, Pc>, c: Conn, r: Rid, releasing: bool, q: Req)
    requires NextCan(t, q) && t in ths && ths[t] == NextReq(releasing) && Ready(t, c, ths[t], r, q)
      && ReqInv(q, r, ths, c)
    ensures Sound(t, ths, r, NextDo(t, c, r, releasing, q))
  {
  }

  lemma NextOthers(t: Tid, u: Tid, stu: Stage, c: Conn, r: Rid, releasing: bool, q: Req)
    requires NextCan(t, q) && StageOk(u, stu, q, c.devs)
    requires !q.f.pending && (q.f.priv ==> !q.f.sent) && (!q.f.priv ==> !q.f.finished && q.h.carrier.Nobody?)
    ensures StageOk(u, stu, NextDo(t, c, r, releasing, q).q, c.devs)
  {
  }

  lemma FlushFair(t: Tid, c: Conn, pc: Pc, r: Rid, q: Req)
    requires FlushCan(c, pc, q) && Ready(t, c, pc, r, q) && q.f.background && q.unique == 0
    ensures Fair(t, c, pc, r, q, FlushDo(c, pc, q))
  {
  }

  lemma FlushSound(t: Tid, ths: map<Tid, Pc>, c: Conn, r: Rid, q: Req)
    requires FlushCan(c, At(ths, t), q) && Ready(t, c, At(ths, t), r, q) && ReqInv(q, r, ths, c)
    ensures var o := FlushDo(c, At(ths, t), q); ReqInv(o.q, r, ths[t := o.pc], o.c) && PcConn(t, o.pc, o.c)
  {
  }

  lemma FlushOthers(u: Tid, stu: Stage, c: Conn, pc: Pc, r: Rid, q: Req)
    requires FlushCan(c, pc, q) && StageOk(u, stu, q, c.devs) && q.f.background && q.unique == 0 && q.f.pending
      && !q.f.finished
    ensures StageOk(u, stu, FlushDo(c, pc, q).q, c.devs)
  {
  }
}
