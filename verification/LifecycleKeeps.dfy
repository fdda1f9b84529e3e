// Every step of RequestLifecycle keeps the invariant.
module LifecycleKeeps {
  import opened Counting
  import opened RequestLifecycle
  import opened LifecycleInvariant
  import opened LifecycleSteps

  // ------------------------------- requests and threads a step does not touch

  // Thread t moves to pc; neither its old nor its new pc speaks of x.
  ghost predicate Aside(ths: map<Tid, Pc>, t: Tid, pc: Pc, x: Rid) {
    || pc == At(ths, t)
    || ((At(ths, t).On? ==> At(ths, t).r != x) && (pc.On? ==> pc.r != x) &&
        (EndsRequests(At(ths, t)) ==> EndsRequests(pc)))
  }

  lemma OtherListed(q: Req, x: Rid, ths: map<Tid, Pc>, devs: map<Did, Dev>, t: Tid, pc: Pc)
    requires Listed(q, x, ths, devs) && Aside(ths, t, pc, x)
    ensures Listed(q, x, ths[t := pc], devs)
  {
  }

  lemma OtherOnce(q: Req, x: Rid, ths: map<Tid, Pc>, t: Tid, pc: Pc)
    requires OnceOnly(q, x, ths) && Aside(ths, t, pc, x)
    ensures OnceOnly(q, x, ths[t := pc])
  {
  }

  lemma OtherResponsible(q: Req, x: Rid, ths: map<Tid, Pc>, t: Tid, pc: Pc)
    requires Responsible(q, x, ths) && Accounted(q, x, ths) && Aside(ths, t, pc, x)
    ensures Responsible(q, x, ths[t := pc]) && Accounted(q, x, ths[t := pc])
  {
  }

  lemma OtherInterruptible(q: Req, x: Rid, ths: map<Tid, Pc>, t: Tid, pc: Pc)
    requires Interruptible(q, x, ths) && Aside(ths, t, pc, x)
    ensures Interruptible(q, x, ths[t := pc])
  {
  }

  // What a request says of the connection
  ghost predicate SameForReqs(c: Conn, c': Conn) {
    c'.devs == c.devs && c.reqctr <= c'.reqctr && c'.abortPhase == c.abortPhase
  }

  lemma OtherReqKeeps(q: Req, x: Rid, ths: map<Tid, Pc>, c: Conn, t: Tid, pc: Pc, c': Conn)
    requires ReqInv(q, x, ths, c) && Aside(ths, t, pc, x) && SameForReqs(c, c')
    ensures ReqInv(q, x, ths[t := pc], c')
  {
    OtherListed(q, x, ths, c.devs, t, pc);
    OtherOnce(q, x, ths, t, pc);
    OtherResponsible(q, x, ths, t, pc);
    OtherInterruptible(q, x, ths, t, pc);
  }

  // ------------------------------------------------ steps on one request

  lemma StageFair(t: Tid, c: Conn, r: Rid, st: Stage, q: Req, x: Choice)
    requires Ready(t, c, On(r, st), r, q) && StageCan(c, st, q, x)
    ensures Fair(t, c, On(r, st), r, q, StageDo(t, c, r, st, q, x))
  {
    match st
    case Alloced(kind) => SubmitFair(t, c, r, kind, x.s, q);
    case Waiting(w) => WaitFair(t, c, r, w, x.w, q);
    case QueueIntr(b) => QueueIntrFair(t, c, r, b, q);
    case Putting(p, k) => PutFair(t, c, r, p, k, q);
    case Taken(d) => TakenFair(t, c, r, d, x.tl, q);
    case Copy(d, write, holding) => CopyFair(t, c, r, d, write, holding, x.c, q);
    case CopyDone(d, wrote, ok) => CopyDoneFair(t, c, r, d, wrote, ok, q);
    case ReadSent => ReadSentFair(t, c, r, q);
    case IntrReply => IntrReplyFair(t, c, r, x.err, q);
    case Ending(e, k) => EndFair(t, c, r, e, k, q);
  }

  lemma StageSound(t: Tid, ths: map<Tid, Pc>, c: Conn, r: Rid, st: Stage, q: Req, x: Choice)
    requires t in ths && ths[t] == On(r, st) && Ready(t, c, ths[t], r, q) && ReqInv(q, r, ths, c)
      && StageCan(c, st, q, x)
    ensures Sound(t, ths, r, StageDo(t, c, r, st, q, x))
  {
    match st
    case Alloced(kind) => SubmitSound(t, ths, c, r, kind, x.s, q);
    case Waiting(w) => WaitSound(t, ths, c, r, w, x.w, q);
    case QueueIntr(b) => QueueIntrSound(t, ths, c, r, b, q);
    case Putting(p, k) => PutSound(t, ths, c, r, p, k, q);
    case Taken(d) => TakenSound(t, ths, c, r, d, x.tl, q);
    case Copy(d, write, holding) => CopySound(t, ths, c, r, d, write, holding, x.c, q);
    case CopyDone(d, wrote, ok) => CopyDoneSound(t, ths, c, r, d, wrote, ok, q);
    case ReadSent => ReadSentSound(t, ths, c, r, q);
    case IntrReply => IntrReplySound(t, ths, c, r, x.err, q);
    case Ending(e, k) => EndSound(t, ths, c, r, e, k, q);
  }

  lemma StageOthers(t: Tid, u: Tid, stu: Stage, c: Conn, r: Rid, st: Stage, q: Req, x: Choice)
    requires StageOk(t, st, q, c.devs) && StageCan(c, st, q, x) && StageOk(u, stu, q, c.devs) && t != u && Shared(stu)
    ensures StageOk(u, stu, StageDo(t, c, r, st, q, x).q, c.devs)
  {
    match st
    case Alloced(kind) => SubmitOthers(t, u, stu, c, r, kind, x.s, q);
    case Waiting(w) => WaitOthers(t, u, stu, c, r, w, x.w, q);
    case QueueIntr(b) => QueueIntrOthers(t, u, stu, c, r, b, q);
    case Putting(p, k) => PutOthers(t, u, stu, c, r, p, k, q);
    case Taken(d) => TakenOthers(t, u, stu, c, r, d, x.tl, q);
    case Copy(d, write, holding) => CopyOthers(t, u, stu, c, r, d, write, holding, x.c, q);
    case CopyDone(d, wrote, ok) => CopyDoneOthers(t, u, stu, c, r, d, wrote, ok, q);
    case ReadSent => ReadSentOthers(t, u, stu, c, r, q);
    case IntrReply => IntrReplyOthers(t, u, stu, c, r, x.err, q);
    case Ending(e, k) => EndOthers(t, u, stu, c, r, e, k, q);
  }

  // What a step on one request leaves behind, in terms of the whole thread table
  ghost predicate Leaves(t: Tid, ths: map<Tid, Pc>, c: Conn, r: Rid, q: Req, x: Choice, o: Out) {
    && Fair(t, c, At(ths, t), r, q, o) && ReqInv(o.q, r, ths[t := o.pc], o.c) && PcConn(t, o.pc, o.c)
    && (if x.Flush? then o.pc == At(ths, t)
        else (o.pc.On? ==> o.pc.r == r && StageOk(t, o.pc.st, o.q, o.c.devs)) &&
             (At(ths, t).On? ==> At(ths, t).r == r) && (EndsRequests(At(ths, t)) ==> EndsRequests(o.pc)))
  }

  lemma LocalLeaves(t: Tid, ths: map<Tid, Pc>, c: Conn, r: Rid, q: Req, x: Choice)
    requires Ready(t, c, At(ths, t), r, q) && LocalCan(t, c, At(ths, t), r, q, x) && ReqInv(q, r, ths, c)
    ensures Leaves(t, ths, c, r, q, x, LocalDo(t, c, At(ths, t), r, q, x))
  {
    var pc := At(ths, t);
    if x.Flush? {
      FlushFair(t, c, pc, r, q);
      FlushSound(t, ths, c, r, q);
    } else if pc.On? {
      StageFair(t, c, r, pc.st, q, x);
      StageSound(t, ths, c, r, pc.st, q, x);
    } else if pc.Idle? {
      PickFair(t, c, r, x.p, q);
      PickSound(t, ths, c, r, x.p, q);
    } else {
      NextFair(t, c, r, pc.releasing, q);
      NextSound(t, ths, c, r, pc.releasing, q);
    }
  }

  lemma LocalOthers(t: Tid, u: Tid, stu: Stage, ths: map<Tid, Pc>, c: Conn, r: Rid, q: Req, x: Choice)
    requires Ready(t, c, At(ths, t), r, q) && LocalCan(t, c, At(ths, t), r, q, x) && ReqInv(q, r, ths, c)
    requires StageOk(u, stu, q, c.devs) && (!x.Flush? ==> t != u && (At(ths, t).On? ==> Shared(stu)))
    ensures StageOk(u, stu, LocalDo(t, c, At(ths, t), r, q, x).q, c.devs)
  {
    var pc := At(ths, t);
    if x.Flush? {
      FlushOthers(u, stu, c, pc, r, q);
    } else if pc.On? {
      StageOthers(t, u, stu, c, r, pc.st, q, x);
    } else if pc.Idle? {
      PickOthers(t, u, stu, c, r, x.p, q);
    } else {
      NextOthers(t, u, stu, c, r, pc.releasing, q);
    }
  }

  // ------------------------------------------------ from one request to all

  lemma GetReady(s: State, t: Tid, r: Rid)
    requires Inv(s) && r in s.reqs
    ensures Ready(t, s.conn, At(s.threads, t), r, s.reqs[r]) && ReqInv(s.reqs[r], r, s.threads, s.conn)
  {
    var pc := At(s.threads, t);
    assert ThreadInv(t, pc, s.reqs, s.conn) by {
      if t in s.threads {
        assert ThreadInv(t, s.threads[t], s.reqs, s.conn);
      }
    }
    assert Counted(s.reqs[r], r, s.threads);
    assert ReqInv(s.reqs[r], r, s.threads, s.conn);
    HoldersStep(s.threads, t, pc, r);
  }

  // Two threads on one request both hold it, and it is neither fresh nor about to be freed.
  lemma TwoOnOne(reqs: map<Rid, Req>, ths: map<Tid, Pc>, c: Conn, t: Tid, u: Tid, r: Rid)
    requires t in ths && u in ths && t != u && ths[t].On? && ths[u].On? && ths[t].r == ths[u].r == r && r in reqs
    requires StageOk(t, ths[t].st, reqs[r], c.devs) && StageOk(u, ths[u].st, reqs[r], c.devs)
      && Counted(reqs[r], r, ths)
    ensures Shared(ths[u].st)
  {
    var h := Holders(ths, r);
    HoldersStep(ths, t, ths[t], r);
    HoldersStep(ths, u, ths[u], r);
    if t in h && u in h {
      Drop(h, t);
      Drop(h - {t}, u);
      assert |h| >= 2;
    }
  }

  function After(s: State, t: Tid, r: Rid, o: Out): State { State(s.reqs[r := o.q], s.threads[t := o.pc], o.c) }

  lemma LocalReqs(s: State, t: Tid, r: Rid, x: Choice, o: Out)
    requires ReqsInv(s) && r in s.reqs && Leaves(t, s.threads, s.conn, r, s.reqs[r], x, o)
    ensures ReqsInv(After(s, t, r, o))
  {
    forall y | y in s.reqs && y != r ensures ReqInv(s.reqs[y], y, s.threads[t := o.pc], o.c) {
      OtherReqKeeps(s.reqs[y], y, s.threads, s.conn, t, o.pc, o.c);
    }
  }

  lemma LocalRefs(s: State, t: Tid, r: Rid, x: Choice, o: Out)
    requires RefsInv(s) && r in s.reqs && Leaves(t, s.threads, s.conn, r, s.reqs[r], x, o)
    ensures RefsInv(After(s, t, r, o))
  {
    forall y | y in s.reqs ensures Counted(s.reqs[r := o.q][y], y, s.threads[t := o.pc]) {
      assert Counted(s.reqs[y], y, s.threads);
      HoldersStep(s.threads, t, o.pc, y);
    }
  }

  lemma OtherConn(u: Tid, pcu: Pc, t: Tid, c: Conn, pc: Pc, o: Out)
    requires PcConn(u, pcu, c) && u != t && MildConn(t, c, pc, o) && PcConn(t, pc, c)
    ensures PcConn(u, pcu, o.c)
  {
  }

  lemma LocalThreads(s: State, t: Tid, r: Rid, x: Choice, o: Out)
    requires ThreadsInv(s) && r in s.reqs && Leaves(t, s.threads, s.conn, r, s.reqs[r], x, o)
    requires PcConn(t, At(s.threads, t), s.conn)
    requires forall u | u in s.threads && s.threads[u].On? && s.threads[u].r == r && (!x.Flush? ==> u != t) ::
               StageOk(u, s.threads[u].st, o.q, s.conn.devs)
    ensures ThreadsInv(After(s, t, r, o))
  {
    var s' := After(s, t, r, o);
    forall u | u in s'.threads ensures ThreadInv(u, s'.threads[u], s'.reqs, o.c) {
      if u in s.threads {
        assert ThreadInv(u, s.threads[u], s.reqs, s.conn);
      }
      if u != t {
        OtherConn(u, s.threads[u], t, s.conn, At(s.threads, t), o);
      }
    }
  }

  lemma LocalConn(s: State, t: Tid, r: Rid, o: Out)
    requires ConnInv(s) && r in s.reqs && Fair(t, s.conn, At(s.threads, t), r, s.reqs[r], o)
    requires PcConn(t, At(s.threads, t), s.conn)
    ensures ConnInv(After(s, t, r, o))
  {
    GettersStep(s.threads, t, o.pc);
    CountsStep(s.reqs, r, o.q);
  }

  lemma LocalIds(s: State, t: Tid, r: Rid, o: Out)
    requires DistinctIds(s.reqs) && ReqsInv(s) && r in s.reqs && MildReq(s.conn, s.reqs[r], o)
    ensures DistinctIds(After(s, t, r, o).reqs)
  {
    forall y | y in s.reqs && s.reqs[y].f.isreply ensures s.reqs[y].unique <= s.conn.reqctr {
      assert ReqInv(s.reqs[y], y, s.threads, s.conn);
    }
  }

  lemma AllOthers(s: State, t: Tid, r: Rid, x: Choice, u: Tid)
    requires Inv(s) && Can(s, t, OnReq(r, x)) && u in s.threads && s.threads[u].On? && s.threads[u].r == r
    requires !x.Flush? ==> u != t
    ensures StageOk(u, s.threads[u].st, LocalDo(t, s.conn, At(s.threads, t), r, s.reqs[r], x).q, s.conn.devs)
  {
    GetReady(s, t, r);
    GetReady(s, u, r);
    if !x.Flush? && At(s.threads, t).On? {
      assert Counted(s.reqs[r], r, s.threads);
      TwoOnOne(s.reqs, s.threads, s.conn, t, u, r);
    }
    LocalOthers(t, u, s.threads[u].st, s.threads, s.conn, r, s.reqs[r], x);
  }

  lemma LocalKeeps(s: State, t: Tid, r: Rid, x: Choice)
    requires Inv(s) && Can(s, t, OnReq(r, x))
    ensures Inv(Next(s, t, OnReq(r, x)))
  {
    var o := LocalDo(t, s.conn, At(s.threads, t), r, s.reqs[r], x);
    GetReady(s, t, r);
    LocalLeaves(t, s.threads, s.conn, r, s.reqs[r], x);
    LocalReqs(s, t, r, x, o);
    LocalRefs(s, t, r, x, o);
    forall u | u in s.threads && s.threads[u].On? && s.threads[u].r == r && (!x.Flush? ==> u != t)
      ensures StageOk(u, s.threads[u].st, o.q, s.conn.devs)
    {
      AllOthers(s, t, r, x, u);
    }
    LocalThreads(s, t, r, x, o);
    LocalConn(s, t, r, o);
    LocalIds(s, t, r, o);
  }
}
