// The life of a request in dev.c, as an interleaving state machine.
//
// Every section that dev.c runs under one spinlock, and every atomic operation
// on a flag or a counter outside of one, is one step of one thread.  Memory is
// sequentially consistent and waits are guards.  The order of requests on a
// list is the subject of module BackgroundQueue; here a request's list_head
// is simply on one list or on none.
module RequestLifecycle {
  import opened Basics
  import opened Counting

  type Rid = nat
  type Tid = nat
  type Did = nat

  const UINT_MAX: int := 0xFFFF_FFFF
  const FUSE_DEFAULT_MAX_BACKGROUND: int := 12
  const FUSE_REQ_ID_STEP: nat := 2

  datatype Who = Nobody | Thread(id: Tid) {
    predicate Is(t: Tid) { Thread? && id == t }
  }

  // Where req->list is linked.  ToEnd(t) is the list head on thread t's stack
  // in fuse_abort_conn or fuse_dev_release.
  datatype ListHead = NoList | BgQueue | Pending | Io(dev: Did) | Processing(dev: Did) | ToEnd(ender: Tid)

  // req->flags, FR_WAITING ... FR_PRIVATE
  datatype Flags = Flags(
    waiting: bool, background: bool, force: bool, isreply: bool, async: bool,
    pending: bool, sent: bool, locked: bool, finished: bool, interrupted: bool,
    aborted: bool, priv: bool)

  // History that no step tests: who submitted the request, who carries it between lists, who set FR_SENT, who
  // set FR_FINISHED, who dropped the last reference; whether an interrupt was ever queued; how often FR_FINISHED
  // went from clear to set and the end callback ran.
  datatype Hist = Hist(
    owner: Who, carrier: Who, sender: Who, completer: Who, freer: Who,
    intrQueued: bool, completions: nat, callbacks: nat)

  // struct fuse_req
  datatype Req = Req(list: ListHead, onIntr: bool, count: int, unique: nat, f: Flags, h: Hist)

  datatype Kind = Sync | SyncForce | Notify | Background

  datatype Phase = Entered | Unblocked | Checked

  // What a thread does after fuse_put_request: return, or take the next
  // request in end_requests.
  datatype Then = Return | NextToEnd(releasing: bool)

  // Points in request_wait_answer
  datatype WaitPoint = WaitStart | WaitIntr | CheckSent | WaitKill | Killed | WaitForced

  // Points in fuse_put_request
  datatype PutPoint = DropRef | LastRef | FreeReq

  // Points in fuse_request_end; EndFlush is flush_bg_queue with bg_lock held
  datatype EndPoint = EndTest | EndIntr | EndUnlink | EndBody | EndFlush | EndCallback

  // What a thread is doing with its request
  datatype Stage =
    | Alloced(kind: Kind)
    | Waiting(w: WaitPoint)
    | QueueIntr(backToWait: bool)
    | Putting(p: PutPoint, pk: Then)
    | Taken(td: Did)
    | Copy(cd: Did, write: bool, holding: bool)
    | CopyDone(dd: Did, wrote: bool, ok: bool)
    | ReadSent
    | IntrReply
    | Ending(e: EndPoint, ek: Then)

  // Program counters
  datatype Pc =
    | Idle
    | Getting(gkind: Kind, phase: Phase)          // fuse_get_req
    | On(r: Rid, st: Stage)
    | Flushing(abort: bool)                       // flush_bg_queue of a submitter or of abort, bg_lock held
    | AbortEntry | AbortDevs(left: set<Did>) | AbortFiq
    | NextReq(releasing: bool)                    // end_requests
    | ReleaseTail

  datatype Dev = Dev(connected: bool, open: bool)

  // What bg_lock protects
  // stale is history: process_init_limits has moved the limit past num without recomputing blocked, and neither has num
  // reached the limit nor has the limit been set again since.
  datatype Bg = Bg(num: int, active: int, max: int, blocked: bool, stale: bool, lock: Who)

  // struct fuse_conn with its input queue and devices.  aborter and abortPhase
  // are history: 1 connected cleared, 2 flushing bg_queue, 3 flushed, 4 done.
  datatype Conn = Conn(
    bg: Bg, devs: map<Did, Dev>, devCount: int,
    connected: bool, fiqConnected: bool, initialized: bool, noInterrupt: bool,
    numWaiting: int, reqctr: nat,
    aborter: Who, abortPhase: nat)

  datatype State = State(reqs: map<Rid, Req>, threads: map<Tid, Pc>, conn: Conn)

  // ---------------------------------------------------------------- helpers

  function At(ths: map<Tid, Pc>, t: Tid): Pc { if t in ths then ths[t] else Idle }

  // A thread that works on r holds one reference to it, until it drops it.
  predicate Holds(pc: Pc, r: Rid) { pc.On? && pc.r == r && (pc.st.Putting? ==> pc.st.p.DropRef?) }

  predicate HoldsBgLock(pc: Pc) { pc.Flushing? || (pc.On? && pc.st.Ending? && pc.st.e.EndFlush?) }

  // A list owns one reference to each of its requests; while a request is on
  // an io list the thread that put it there owns that reference.
  function ListRef(l: ListHead): int { if l.NoList? || l.Io? then 0 else 1 }

  predicate IsWaiting(q: Req) { q.f.waiting }
  predicate IsActive(q: Req) { q.f.background && q.unique != 0 }
  predicate IsBgQueued(q: Req) { q.list.BgQueue? }

  ghost function Holders(ths: map<Tid, Pc>, r: Rid): set<Tid> { Where(ths, (pc: Pc) => Holds(pc, r)) }
  ghost function Getters(ths: map<Tid, Pc>): set<Tid> { Where(ths, (pc: Pc) => pc.Getting?) }
  ghost function WaitingReqs(reqs: map<Rid, Req>): set<Rid> { Where(reqs, IsWaiting) }
  ghost function ActiveReqs(reqs: map<Rid, Req>): set<Rid> { Where(reqs, IsActive) }
  ghost function BgQueued(reqs: map<Rid, Req>): set<Rid> { Where(reqs, IsBgQueued) }

  // request_wait_answer after the interruptible wait
  function AfterSignal(q: Req): Stage { Waiting(if q.f.force then WaitForced else WaitKill) }

  function AfterPut(k: Then): Pc { if k.Return? then Idle else NextReq(k.releasing) }

  // fuse_request_init plus the flags of fuse_get_req, fuse_simple_request and fuse_args_to_req
  function NewReq(t: Tid, waiting: bool, background: bool, force: bool, isreply: bool, async: bool): Req {
    Req(NoList, false, 1, 0, Flags(waiting, background, force, isreply, async,
        true, false, false, false, false, false, false),
        Hist(Thread(t), Nobody, Nobody, Nobody, Nobody, false, 0, 0))
  }

  // queue_interrupt, 334-362
  function QueueInterrupt(q: Req): Req {
    if !q.f.interrupted || q.onIntr then q
    else if q.f.finished then q.(h := q.h.(intrQueued := true))
    else q.(onIntr := true, h := q.h.(intrQueued := true))
  }

  // Taking a request off pending, 1331-1333
  function TakeReq(q: Req, t: Tid): Req {
    q.(list := NoList, f := q.f.(pending := false), h := q.h.(carrier := Thread(t)))
  }

  // What fuse_abort_conn does to one request under the lock of device d
  function AbortOnDev(q: Req, d: Did, t: Tid): Req {
    if q.list.Io? && q.list.dev == d then
      if q.f.locked then q.(f := q.f.(aborted := true))
      else q.(f := q.f.(aborted := true, priv := true), count := q.count + 1, list := ToEnd(t))
    else ReleaseDev(q, d, t)
  }

  function AbortDevConn(c: Conn, d: Did): Conn
    requires d in c.devs
  {
    c.(initialized := true, devs := c.devs[d := c.devs[d].(connected := false)])
  }

  // What fuse_abort_conn and fuse_dev_release do to a processing list of device d
  function ReleaseDev(q: Req, d: Did, t: Tid): Req {
    if q.list.Processing? && q.list.dev == d then q.(list := ToEnd(t)) else q
  }

  // What fuse_abort_conn does to one request under fiq->lock
  function AbortPending(q: Req, t: Tid): Req {
    if q.list.Pending? then q.(list := ToEnd(t), f := q.f.(pending := false)) else q
  }

  predicate UsesDev(pc: Pc, d: Did) {
    pc.On? && ((pc.st.Taken? && pc.st.td == d) || (pc.st.Copy? && pc.st.cd == d) || (pc.st.CopyDone? && pc.st.dd == d))
  }

  predicate OpenDev(c: Conn, d: Did) { d in c.devs && c.devs[d].open }

  predicate LiveDev(c: Conn, d: Did) { d in c.devs && c.devs[d].open && c.devs[d].connected }

  // ------------------------------------------------ the background counters

  // fuse_request_queue_background, 535-537
  function Arrive(b: Bg): Bg {
    b.(num := b.num + 1, blocked := b.num + 1 == b.max || b.blocked, stale := b.stale && b.num + 1 != b.max)
  }

  // fuse_request_end, 304-319
  function Leave(b: Bg): Bg {
    b.(num := b.num - 1, active := b.active - 1, blocked := b.num != b.max && b.blocked,
       stale := b.stale && b.num != b.max)
  }

  // flush_bg_queue, 264
  function Activate(b: Bg): Bg { b.(active := b.active + 1) }

  // fuse_conn_max_background_write
  function SetMax(b: Bg, val: nat): Bg { b.(max := val, blocked := b.num >= val, stale := false) }

  // fuse_abort_conn
  function Unlimit(b: Bg): Bg { b.(blocked := false, max := UINT_MAX, stale := false) }

  // process_init_limits
  function InitMax(b: Bg, val: nat): Bg { b.(max := val, stale := b.blocked != (b.num >= val)) }

  // blocked is right exactly if it is not stale.
  predicate BlockedOk(b: Bg) { (b.blocked <==> b.num >= b.max) <==> !b.stale }

  // ------------------------------------- steps of one thread on one request

  // What a thread leaves behind: the connection, its program counter, the request.
  datatype Out = Out(c: Conn, pc: Pc, q: Req)

  datatype SubmitAction = Overflow | SendSync | SendNotify(u: nat) | MarkWaiting | QueueBg

  predicate SubmitCan(c: Conn, kind: Kind, q: Req, a: SubmitAction) {
    match a
    case Overflow => !kind.SyncForce?
    case SendSync => kind.Sync? || kind.SyncForce?
    case SendNotify(_) => kind.Notify?
    case MarkWaiting => kind.Background? && !q.f.waiting
    case QueueBg => kind.Background? && q.f.waiting && c.bg.lock.Nobody?
  }

  // The end of fuse_get_req (147-151), __fuse_request_send (410-430), fuse_simple_notify_reply (593-600),
  // fuse_request_queue_background (522-546)
  function SubmitDo(t: Tid, c: Conn, r: Rid, kind: Kind, q: Req, a: SubmitAction): Out {
    var drop := Out(c, On(r, Putting(DropRef, Return)), q);
    match a
    case Overflow => drop
    case SendSync =>
      if !c.fiqConnected then drop
      else
        var u := c.reqctr + FUSE_REQ_ID_STEP;
        Out(c.(reqctr := u), On(r, Waiting(WaitStart)), q.(unique := u, count := q.count + 1, list := Pending))
    case SendNotify(u) =>
      if !c.fiqConnected then drop else Out(c, Idle, q.(unique := u, list := Pending))
    case MarkWaiting =>
      Out(c.(numWaiting := c.numWaiting + 1), On(r, Alloced(kind)), q.(f := q.f.(waiting := true)))
    case QueueBg =>
      if !c.connected then drop
      else
        Out(c.(bg := Arrive(c.bg).(lock := Thread(t))), Flushing(false), q.(list := BgQueue))
  }

  // One turn of flush_bg_queue, 259-269
  predicate FlushCan(c: Conn, pc: Pc, q: Req) { HoldsBgLock(pc) && c.bg.active < c.bg.max && q.list.BgQueue? }

  function FlushDo(c: Conn, pc: Pc, q: Req): Out {
    var u := c.reqctr + FUSE_REQ_ID_STEP;
    Out(c.(bg := Activate(c.bg), reqctr := u), pc, q.(unique := u, list := Pending))
  }

  datatype WaitAction = StartWait | WakeFinished | Signal | TestSent | Kill | TestPending

  predicate WaitCan(w: WaitPoint, q: Req, a: WaitAction) {
    match a
    case StartWait => w.WaitStart?
    case WakeFinished => (w.WaitIntr? || w.WaitKill? || w.WaitForced?) && q.f.finished
    case Signal => w.WaitIntr?
    case TestSent => w.CheckSent?
    case Kill => w.WaitKill?
    case TestPending => w.Killed?
  }

  // request_wait_answer, 364-408
  function WaitDo(c: Conn, r: Rid, q: Req, a: WaitAction): Out {
    match a
    case StartWait => Out(c, On(r, if !c.noInterrupt then Waiting(WaitIntr) else AfterSignal(q)), q)
    case WakeFinished => Out(c, On(r, Putting(DropRef, Return)), q)
    case Signal => Out(c, On(r, Waiting(CheckSent)), q.(f := q.f.(interrupted := true)))
    case TestSent => Out(c, On(r, if q.f.sent then QueueIntr(true) else AfterSignal(q)), q)
    case Kill => Out(c, On(r, Waiting(Killed)), q)
    case TestPending =>
      if q.f.pending then Out(c, On(r, Putting(DropRef, Return)), q.(list := NoList, count := q.count - 1))
      else Out(c, On(r, Waiting(WaitForced)), q)
  }

  // queue_interrupt, called by the submitter, by the reader after FR_SENT, or on an -EAGAIN interrupt reply
  function QueueIntrDo(c: Conn, r: Rid, backToWait: bool, q: Req): Out {
    Out(c, On(r, if backToWait then AfterSignal(q) else Putting(DropRef, Return)), QueueInterrupt(q))
  }

  // fuse_put_request, 163 ...
  function DropRefDo(t: Tid, c: Conn, r: Rid, k: Then, q: Req): Out {
    if q.count == 1 then Out(c, On(r, Putting(LastRef, k)), q.(count := 0, h := q.h.(freer := Thread(t))))
    else Out(c, AfterPut(k), q.(count := q.count - 1))
  }

  // ... and 175-178
  function LastRefDo(c: Conn, r: Rid, k: Then, q: Req): Out {
    Out(c.(numWaiting := if q.f.waiting then c.numWaiting - 1 else c.numWaiting),
        On(r, Putting(FreeReq, k)), q.(f := q.f.(waiting := false)))
  }

  // fuse_dev_do_read with a request taken from pending, 1340-1358
  function TakenDo(c: Conn, r: Rid, d: Did, q: Req, tooLarge: bool): Out {
    if !tooLarge && d in c.devs && c.devs[d].connected then Out(c, On(r, Copy(d, false, false)), q.(list := Io(d)))
    else Out(c, On(r, Ending(EndTest, Return)), q)
  }

  datatype CopyAction = LockReq | UnlockReq | StealPage | StopCopy(ok: bool)

  // lock_request (610-622), unlock_request (628-640) and the page swap of fuse_try_move_page (849-854),
  // called any number of times while arguments are copied
  function CopyDo(c: Conn, r: Rid, d: Did, write: bool, q: Req, a: CopyAction): Out {
    if a.StopCopy? then Out(c, On(r, CopyDone(d, write, a.ok)), q)
    else if q.f.aborted then Out(c, On(r, CopyDone(d, write, false)), q)
    else if a.LockReq? then Out(c, On(r, Copy(d, write, true)), q.(f := q.f.(locked := true)))
    else if a.UnlockReq? then Out(c, On(r, Copy(d, write, false)), q.(f := q.f.(locked := false)))
    else Out(c, On(r, Copy(d, write, false)), q)
  }

  predicate CopyCan(holding: bool, a: CopyAction) { a.LockReq? || a.StealPage? ==> !holding }

  // Whether a request read completely goes to the processing list
  predicate Sends(c: Conn, d: Did, wrote: bool, ok: bool, q: Req) {
    !wrote && d in c.devs && c.devs[d].connected && ok && q.f.isreply
  }

  // The end of fuse_dev_do_read (1365-1397) and of fuse_dev_do_write (1998-2008)
  function CopyDoneDo(t: Tid, c: Conn, r: Rid, d: Did, wrote: bool, ok: bool, q: Req): Out {
    if Sends(c, d, wrote, ok, q) then
      Out(c, On(r, ReadSent),
          q.(list := Processing(d), count := q.count + 1, f := q.f.(locked := false, sent := true),
             h := q.h.(carrier := Nobody, sender := Thread(t))))
    else
      Out(c, On(r, Ending(EndTest, Return)),
          q.(list := if q.f.priv then q.list else NoList, f := q.f.(locked := false)))
  }

  // fuse_dev_do_read after setting FR_SENT, 1386-1388
  function ReadSentDo(c: Conn, r: Rid, q: Req): Out {
    Out(c, On(r, if q.f.interrupted then QueueIntr(false) else Putting(DropRef, Return)), q)
  }

  // fuse_dev_do_write with an interrupt id, 1963-1971
  function IntrReplyDo(c: Conn, r: Rid, q: Req, error: int): Out {
    Out(if error == -ENOSYS then c.(noInterrupt := true) else c,
        On(r, if error == -EAGAIN then QueueIntr(false) else Putting(DropRef, Return)), q)
  }

  datatype PickAction = ReadInterrupt(d: Did) | WriteFind(d: Did) | WriteIntr(d: Did)

  predicate PickCan(c: Conn, q: Req, a: PickAction) {
    match a
    case ReadInterrupt(d) => OpenDev(c, d) && c.fiqConnected && q.onIntr
    case WriteFind(d) => LiveDev(c, d) && q.list.Processing? && q.list.dev == d
    case WriteIntr(d) => LiveDev(c, d) && q.list.Processing? && q.list.dev == d
  }

  // fuse_dev_do_read taking an interrupt (1317-1320), fuse_dev_do_write finding its request (1947-1980)
  function PickDo(t: Tid, c: Conn, r: Rid, q: Req, a: PickAction): Out {
    match a
    case ReadInterrupt(_) => Out(c, Idle, q.(onIntr := false))
    case WriteFind(d) =>
      Out(c, On(r, Copy(d, true, true)),
          q.(list := Io(d), f := q.f.(sent := false, locked := true), h := q.h.(carrier := Thread(t))))
    case WriteIntr(_) => Out(c, On(r, IntrReply), q.(count := q.count + 1))
  }

  // One turn of end_requests up to the call of fuse_request_end, 2152-2158
  predicate NextCan(t: Tid, q: Req) { q.list.ToEnd? && q.list.ender == t }

  function NextDo(t: Tid, c: Conn, r: Rid, releasing: bool, q: Req): Out {
    Out(c, On(r, Ending(EndTest, NextToEnd(releasing))),
        q.(list := NoList, f := q.f.(sent := false), h := if q.f.priv then q.h else q.h.(carrier := Thread(t))))
  }

  // fuse_request_end: test_and_set_bit(FR_FINISHED), 286
  function EndTestDo(t: Tid, c: Conn, r: Rid, k: Then, q: Req): Out {
    if q.f.finished then Out(c, On(r, Putting(DropRef, k)), q)
    else
      Out(c, On(r, Ending(EndIntr, k)),
          q.(f := q.f.(finished := true), h := q.h.(completer := Thread(t), completions := q.h.completions + 1)))
  }

  // ... 294-300
  function EndIntrDo(c: Conn, r: Rid, e: EndPoint, k: Then, q: Req): Out {
    if e.EndUnlink? then Out(c, On(r, Ending(EndBody, k)), q.(onIntr := false))
    else Out(c, On(r, Ending(if q.f.interrupted then EndUnlink else EndBody, k)), q)
  }

  // ... 301-325
  predicate EndBodyCan(c: Conn, q: Req) { q.f.background ==> c.bg.lock.Nobody? }

  function EndBodyDo(t: Tid, c: Conn, r: Rid, k: Then, q: Req): Out {
    if q.f.background then
      Out(c.(bg := Leave(c.bg).(lock := Thread(t))),
          On(r, Ending(EndFlush, k)), q.(f := q.f.(background := false)))
    else Out(c, On(r, Ending(EndCallback, k)), q)
  }

  // ... 327-328
  function EndCallbackDo(c: Conn, r: Rid, k: Then, q: Req): Out {
    Out(c, On(r, Putting(DropRef, k)), if q.f.async then q.(h := q.h.(callbacks := q.h.callbacks + 1)) else q)
  }

  function EndDo(t: Tid, c: Conn, r: Rid, e: EndPoint, k: Then, q: Req): Out {
    if e.EndTest? then EndTestDo(t, c, r, k, q)
    else if e.EndBody? then EndBodyDo(t, c, r, k, q)
    else if e.EndCallback? then EndCallbackDo(c, r, k, q)
    else EndIntrDo(c, r, e, k, q)
  }

  predicate EndCan(c: Conn, e: EndPoint, q: Req) { !e.EndFlush? && (e.EndBody? ==> EndBodyCan(c, q)) }

  function PutDo(t: Tid, c: Conn, r: Rid, p: PutPoint, k: Then, q: Req): Out {
    if p.DropRef? then DropRefDo(t, c, r, k, q) else LastRefDo(c, r, k, q)
  }

  // The choices left open by the program counter
  datatype Choice =
    | Submit(s: SubmitAction) | Wait(w: WaitAction) | CopyArgs(c: CopyAction) | Pick(p: PickAction)
    | Flush | TooLarge(tl: bool) | Error(err: int) | Proceed

  predicate StageCan(c: Conn, st: Stage, q: Req, a: Choice) {
    match st
    case Alloced(kind) => a.Submit? && SubmitCan(c, kind, q, a.s)
    case Waiting(w) => a.Wait? && WaitCan(w, q, a.w)
    case Taken(_) => a.TooLarge?
    case Copy(_, _, holding) => a.CopyArgs? && CopyCan(holding, a.c)
    case IntrReply => a.Error?
    case Putting(p, _) => a.Proceed? && !p.FreeReq?
    case Ending(e, _) => a.Proceed? && EndCan(c, e, q)
    case _ => a.Proceed?
  }

  function StageDo(t: Tid, c: Conn, r: Rid, st: Stage, q: Req, a: Choice): Out
    requires StageCan(c, st, q, a)
  {
    match st
    case Alloced(kind) => SubmitDo(t, c, r, kind, q, a.s)
    case Waiting(w) => WaitDo(c, r, q, a.w)
    case QueueIntr(b) => QueueIntrDo(c, r, b, q)
    case Putting(p, k) => PutDo(t, c, r, p, k, q)
    case Taken(d) => TakenDo(c, r, d, q, a.tl)
    case Copy(d, write, _) => CopyDo(c, r, d, write, q, a.c)
    case CopyDone(d, wrote, ok) => CopyDoneDo(t, c, r, d, wrote, ok, q)
    case ReadSent => ReadSentDo(c, r, q)
    case IntrReply => IntrReplyDo(c, r, q, a.err)
    case Ending(e, k) => EndDo(t, c, r, e, k, q)
  }

  // A thread on r works on r; an idle thread, end_requests and flush_bg_queue pick theirs.
  predicate LocalCan(t: Tid, c: Conn, pc: Pc, r: Rid, q: Req, a: Choice) {
    if a.Flush? then FlushCan(c, pc, q)
    else if pc.On? then pc.r == r && StageCan(c, pc.st, q, a)
    else if pc.Idle? then a.Pick? && PickCan(c, q, a.p)
    else pc.NextReq? && a.Proceed? && NextCan(t, q)
  }

  function LocalDo(t: Tid, c: Conn, pc: Pc, r: Rid, q: Req, a: Choice): Out
    requires LocalCan(t, c, pc, r, q, a)
  {
    if a.Flush? then FlushDo(c, pc, q)
    else if pc.On? then StageDo(t, c, r, pc.st, q, a)
    else if pc.Idle? then PickDo(t, c, r, q, a.p)
    else NextDo(t, c, r, pc.releasing, q)
  }

  // ------------------------------------------- steps that touch no request

  datatype ConnAction =
    | EnterGet(kind: Kind) | PassBlock | PassConnected | FailGet
    | FlushExit | AbortStart | AbortBg | EndExit | DropDev
    | SetMaxBackground(val: nat) | InitLimits(limit: nat) | Initialize

  ghost predicate ConnCan(s: State, t: Tid, a: ConnAction) {
    var pc, c := At(s.threads, t), s.conn;
    match a
    case EnterGet(_) => pc.Idle?
    case PassBlock =>
      pc.Getting? && pc.phase.Entered? && !pc.gkind.SyncForce? && c.initialized
        && !(pc.gkind.Background? && c.bg.blocked)
    case PassConnected => pc.Getting? && pc.phase.Unblocked? && c.connected
    case FailGet => pc.Getting? && !pc.gkind.SyncForce?
    case FlushExit => HoldsBgLock(pc) && (c.bg.active >= c.bg.max || BgQueued(s.reqs) == {})
    case AbortStart => (pc.Idle? || pc.AbortEntry?) && (c.connected ==> c.bg.lock.Nobody?)
    case AbortBg => pc.AbortDevs? && pc.left == {} && c.bg.lock.Nobody?
    case EndExit => pc.NextReq? && forall r | r in s.reqs :: !NextCan(t, s.reqs[r])
    case DropDev => pc.ReleaseTail?
    case SetMaxBackground(_) => pc.Idle? && c.bg.lock.Nobody?
    case InitLimits(_) => pc.Idle? && c.bg.lock.Nobody?
    case Initialize => pc.Idle?
  }

  // fuse_get_req (106-137) and fuse_simple_request (490), the end of flush_bg_queue, parts of fuse_abort_conn
  // (2199-2237) and fuse_dev_release (2283-2288), fuse_conn_max_background_write (control.c:131-136),
  // process_init_limits (inode.c:1091-1105) and fuse_set_initialized
  function ConnDo(t: Tid, c: Conn, pc: Pc, a: ConnAction): (Conn, Pc) {
    match a
    case EnterGet(kind) => (c.(numWaiting := c.numWaiting + 1), Getting(kind, Entered))
    case PassBlock => (c, if pc.Getting? then Getting(pc.gkind, Unblocked) else pc)
    case PassConnected => (c, if pc.Getting? then Getting(pc.gkind, Checked) else pc)
    case FailGet => (c.(numWaiting := c.numWaiting - 1), Idle)
    case FlushExit =>
      var unlocked := c.(bg := c.bg.(lock := Nobody));
      if pc.On? && pc.st.Ending? then (unlocked, On(pc.r, Ending(EndCallback, pc.st.ek)))
      else if pc.Flushing? && pc.abort then (unlocked.(abortPhase := 3), AbortFiq)
      else (unlocked, Idle)
    case AbortStart =>
      if c.connected then (c.(connected := false, aborter := Thread(t), abortPhase := 1), AbortDevs(c.devs.Keys))
      else (c, Idle)
    case AbortBg =>
      (c.(initialized := true, bg := Unlimit(c.bg).(lock := Thread(t)), abortPhase := 2),
       Flushing(true))
    case EndExit => (c, if pc.NextReq? && pc.releasing then ReleaseTail else Idle)
    case DropDev => (c.(devCount := c.devCount - 1), if c.devCount - 1 == 0 then AbortEntry else Idle)
    case SetMaxBackground(val) => (c.(bg := SetMax(c.bg, val)), Idle)
    case InitLimits(val) => (c.(bg := InitMax(c.bg, val)), Idle)
    case Initialize => (c.(initialized := true), Idle)
  }

  // -------------------------------------- steps that touch several requests

  datatype WideAction =
    | AllocGet(r: Rid, isreply: bool, async: bool) | AllocForceBg(r: Rid, async: bool) | Freeing
    | TakePending(d: Did, r: Rid)
    | AbortDev(d: Did) | AbortPendingQueue | Release(d: Did)

  ghost predicate WideCan(s: State, t: Tid, a: WideAction) {
    var pc, c := At(s.threads, t), s.conn;
    match a
    case AllocGet(r, isreply, _) =>
      pc.Getting? && (pc.phase.Checked? || pc.gkind.SyncForce?) && r !in s.reqs && |s.reqs| + 1 < UINT_MAX &&
      (pc.gkind.Notify? ==> !isreply) && (pc.gkind.Background? ==> isreply)
    case AllocForceBg(r, _) => pc.Idle? && r !in s.reqs && |s.reqs| + 1 < UINT_MAX
    case Freeing => pc.On? && pc.st.Putting? && pc.st.p.FreeReq? && pc.r in s.reqs
    case TakePending(d, r) =>
      pc.Idle? && OpenDev(c, d) && c.fiqConnected && r in s.reqs && s.reqs[r].list.Pending? &&
      forall x | x in s.reqs :: !s.reqs[x].onIntr
    case AbortDev(d) => pc.AbortDevs? && d in pc.left && d in c.devs
    case AbortPendingQueue => pc.AbortFiq?
    case Release(d) => pc.Idle? && OpenDev(c, d) && forall u | u in s.threads :: !UsesDev(s.threads[u], d)
  }

  // fuse_request_alloc (131-145, 491-497, 555-558), fuse_request_free (180), taking the first pending request
  // (1317-1334), the per-device (2212-2232) and input-queue (2239-2247) sections of fuse_abort_conn, and the
  // locked section of fuse_dev_release (2277-2281)
  ghost function WideDo(s: State, t: Tid, a: WideAction): State
    requires WideCan(s, t, a)
  {
    var pc, c := At(s.threads, t), s.conn;
    match a
    case AllocGet(r, isreply, async) =>
      var q := NewReq(t, true, pc.gkind.Background?, pc.gkind.SyncForce?, isreply, async);
      State(s.reqs[r := q], s.threads[t := On(r, Alloced(pc.gkind))], c)
    case AllocForceBg(r, async) =>
      State(s.reqs[r := NewReq(t, false, true, false, true, async)], s.threads[t := On(r, Alloced(Background))], c)
    case Freeing => State(s.reqs - {pc.r}, s.threads[t := AfterPut(pc.st.pk)], c)
    case TakePending(d, r) => State(s.reqs[r := TakeReq(s.reqs[r], t)], s.threads[t := On(r, Taken(d))], c)
    case AbortDev(d) =>
      State(map r | r in s.reqs :: AbortOnDev(s.reqs[r], d, t), s.threads[t := AbortDevs(pc.left - {d})],
            AbortDevConn(c, d))
    case AbortPendingQueue =>
      State(map r | r in s.reqs :: AbortPending(s.reqs[r], t), s.threads[t := NextReq(false)],
            c.(fiqConnected := false, abortPhase := 4))
    case Release(d) =>
      State(map r | r in s.reqs :: ReleaseDev(s.reqs[r], d, t), s.threads[t := NextReq(true)],
            c.(devs := c.devs[d := c.devs[d].(open := false)]))
  }

  datatype Action = OnReq(r: Rid, a: Choice) | OnConn(ca: ConnAction) | OnMany(w: WideAction)

  ghost predicate Can(s: State, t: Tid, a: Action) {
    match a
    case OnReq(r, x) => r in s.reqs && LocalCan(t, s.conn, At(s.threads, t), r, s.reqs[r], x)
    case OnConn(x) => ConnCan(s, t, x)
    case OnMany(x) => WideCan(s, t, x)
  }

  // The state after thread t takes step a
  ghost function Next(s: State, t: Tid, a: Action): State
    requires Can(s, t, a)
  {
    match a
    case OnReq(r, x) =>
      var o := LocalDo(t, s.conn, At(s.threads, t), r, s.reqs[r], x);
      State(s.reqs[r := o.q], s.threads[t := o.pc], o.c)
    case OnConn(x) =>
      var (c, pc) := ConnDo(t, s.conn, At(s.threads, t), x);
      State(s.reqs, s.threads[t := pc], c)
    case OnMany(x) => WideDo(s, t, x)
  }

  // fuse_conn_init with the given devices attached
  ghost predicate Init(s: State) {
    var c := s.conn;
    && s.reqs == map[] && s.threads == map[]
    && (forall d | d in c.devs :: c.devs[d].connected && c.devs[d].open) && c.devCount == |c.devs|
    && c.bg == Bg(0, 0, FUSE_DEFAULT_MAX_BACKGROUND, false, false, Nobody)
    && c.connected && c.fiqConnected && !c.initialized && !c.noInterrupt
    && c.numWaiting == 0 && c.reqctr == 0 && c.aborter.Nobody? && c.abortPhase == 0
  }
}
