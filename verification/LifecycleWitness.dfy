// A run of RequestLifecycle: a background request is submitted, read, answered, completed and freed, another one is
// submitted, and the connection is aborted.
module LifecycleWitness {
  import opened RequestLifecycle
  import opened LifecycleSafety

  ghost predicate Takes(s: State, x: Step, s': State) { Can(s, x.t, x.a) && Next(s, x.t, x.a) == s' }

  // The steps lead through the states.
  ghost predicate Leads(ss: seq<State>, steps: seq<Step>) {
    |ss| == |steps| + 1 && forall k | 0 <= k < |steps| :: Takes(ss[k], steps[k], ss[k + 1])
  }

  lemma Nothing(s: State)
    ensures Leads([s], [])
  {
  }

  // One more step
  lemma More(ss: seq<State>, steps: seq<Step>, x: Step, s: State) returns (all: seq<State>, both: seq<Step>)
    requires Leads(ss, steps) && Takes(ss[|ss| - 1], x, s)
    ensures Leads(all, both) && all == ss + [s] && both == steps + [x]
  {
    all, both := ss + [s], steps + [x];
    forall k | 0 <= k < |both| ensures Takes(all[k], both[k], all[k + 1]) {
      if k < |steps| {
        assert all[k] == ss[k] && all[k + 1] == ss[k + 1] && both[k] == steps[k];
      }
    }
  }

  lemma LeadsRun(ss: seq<State>, steps: seq<Step>)
    requires Leads(ss, steps) && Init(ss[0])
    ensures Run(ss, steps)
  {
    forall k | 0 <= k < |steps|
      ensures Can(ss[k], steps[k].t, steps[k].a) && ss[k + 1] == Next(ss[k], steps[k].t, steps[k].a)
    {
      assert Takes(ss[k], steps[k], ss[k + 1]);
    }
  }

  // Threads 1 and 2 are at p1 and p2, and the connection is c, without requests ...
  ghost predicate Before(s: State, c: Conn, p1: Pc, p2: Pc) {
    s.reqs == map[] && s.conn == c && At(s.threads, 1) == p1 && At(s.threads, 2) == p2 && s.threads.Keys <= {1, 2}
  }

  // ... and with the request q.
  ghost predicate Now(s: State, q: Req, c: Conn, p1: Pc, p2: Pc) {
    && s.reqs.Keys == {0} && s.reqs[0] == q && s.conn == c && At(s.threads, 1) == p1 && At(s.threads, 2) == p2
    && s.threads.Keys <= {1, 2}
  }

  // Thread 1 or 2 takes a step on the request.
  lemma OnOne(s: State, q: Req, c: Conn, p1: Pc, p2: Pc, t: Tid, x: Choice, o: Out) returns (s': State)
    requires Now(s, q, c, p1, p2) && (t == 1 || t == 2)
    requires var pc := if t == 1 then p1 else p2; LocalCan(t, c, pc, 0, q, x) && o == LocalDo(t, c, pc, 0, q, x)
    ensures Takes(s, Step(t, OnReq(0, x)), s')
    ensures Now(s', o.q, o.c, if t == 1 then o.pc else p1, if t == 2 then o.pc else p2)
  {
    s' := State(s.reqs[0 := o.q], s.threads[t := o.pc], o.c);
  }

  // ------------------------------------------------ the connection

  // A connection with one device, before and after the INIT reply
  function Conn0(): Conn {
    Conn(Bg(0, 0, FUSE_DEFAULT_MAX_BACKGROUND, false, false, Nobody), map[0 := Dev(true, true)], 1, true, true, false,
         false,
         0, 0, Nobody, 0)
  }

  function Ready(ctr: nat): Conn { Conn0().(initialized := true, reqctr := ctr) }

  // One background request is counted: waiting, queued or active
  function Busy(ctr: nat, active: int, lock: Who): Conn {
    Ready(ctr).(numWaiting := 1, bg := Ready(ctr).bg.(num := 1, active := active, lock := lock))
  }

  lemma Begin() returns (ss: seq<State>, steps: seq<Step>)
    ensures Leads(ss, steps) && Init(ss[0]) && |steps| == 1 && Before(ss[1], Ready(0), Idle, Idle)
  {
    var s0 := State(map[], map[], Conn0());
    var s1 := State(map[], map[2 := Idle], Ready(0));
    assert map[][2 := Idle] == map[2 := Idle];
    ss, steps := [s0, s1], [Step(2, OnConn(Initialize))];
  }

  // ------------------------------------------------ submitting

  const GOT: Req := NewReq(1, true, true, false, true, true)

  lemma Entering(s: State, ctr: nat) returns (ss: seq<State>, steps: seq<Step>)
    requires Before(s, Ready(ctr), Idle, Idle)
    ensures Leads(ss, steps) && |steps| == 3 && ss[0] == s
    ensures Before(ss[3], Ready(ctr).(numWaiting := 1), Getting(Background, Checked), Idle)
  {
    var c := Ready(ctr).(numWaiting := 1);
    var s1 := State(map[], s.threads[1 := Getting(Background, Entered)], c);
    var s2 := State(map[], s1.threads[1 := Getting(Background, Unblocked)], c);
    var s3 := State(map[], s2.threads[1 := Getting(Background, Checked)], c);
    Nothing(s);
    ss, steps := More([s], [], Step(1, OnConn(EnterGet(Background))), s1);
    ss, steps := More(ss, steps, Step(1, OnConn(PassBlock)), s2);
    ss, steps := More(ss, steps, Step(1, OnConn(PassConnected)), s3);
  }

  lemma Allocating(s: State, c: Conn) returns (s': State)
    requires Before(s, c, Getting(Background, Checked), Idle)
    ensures Takes(s, Step(1, OnMany(AllocGet(0, true, true))), s') && Now(s', GOT, c, On(0, Alloced(Background)), Idle)
  {
    assert |s.reqs| == 0;
    s' := State(s.reqs[0 := GOT], s.threads[1 := On(0, Alloced(Background))], c);
  }

  function Queued(): Req { GOT.(list := BgQueue) }

  function Sent(ctr: nat): Req { GOT.(list := Pending, unique := ctr + 2) }

  // The end of flush_bg_queue with an empty queue
  lemma FlushEnds(s: State, q: Req, c: Conn, p1: Pc, p2: Pc, t: Tid, c': Conn, pc': Pc) returns (s': State)
    requires Now(s, q, c, p1, p2) && !q.list.BgQueue? && (t == 1 || t == 2)
    requires var pc := if t == 1 then p1 else p2; HoldsBgLock(pc) && ConnDo(t, c, pc, FlushExit) == (c', pc')
    ensures Takes(s, Step(t, OnConn(FlushExit)), s')
    ensures Now(s', q, c', if t == 1 then pc' else p1, if t == 2 then pc' else p2)
  {
    assert BgQueued(s.reqs) == {};
    s' := State(s.reqs, s.threads[t := pc'], c');
  }

  lemma Queueing(s: State, ctr: nat) returns (ss: seq<State>, steps: seq<Step>)
    requires Now(s, GOT, Ready(ctr).(numWaiting := 1), On(0, Alloced(Background)), Idle)
    ensures Leads(ss, steps) && |steps| == 3 && ss[0] == s
      && Now(ss[3], Sent(ctr), Busy(ctr + 2, 1, Nobody), Idle, Idle)
  {
    var c1, c2 := Busy(ctr, 0, Thread(1)), Busy(ctr + 2, 1, Thread(1));
    var s1 := OnOne(s, GOT, Ready(ctr).(numWaiting := 1), On(0, Alloced(Background)), Idle, 1, Submit(QueueBg),
                    Out(c1, Flushing(false), Queued()));
    var s2 := OnOne(s1, Queued(), c1, Flushing(false), Idle, 1, Flush, Out(c2, Flushing(false), Sent(ctr)));
    var s3 := FlushEnds(s2, Sent(ctr), c2, Flushing(false), Idle, 1, Busy(ctr + 2, 1, Nobody), Idle);
    Nothing(s);
    ss, steps := More([s], [], Step(1, OnReq(0, Submit(QueueBg))), s1);
    ss, steps := More(ss, steps, Step(1, OnReq(0, Flush)), s2);
    ss, steps := More(ss, steps, Step(1, OnConn(FlushExit)), s3);
  }

  // ------------------------------------------------ reading and answering

  function Read(ctr: nat): Req {
    Sent(ctr).(list := NoList, f := GOT.f.(pending := false), h := GOT.h.(carrier := Thread(2)))
  }

  function InIo(ctr: nat): Req { Read(ctr).(list := Io(0)) }

  function Processed(ctr: nat, count: int): Req {
    Read(ctr).(list := Processing(0), count := count, f := Read(ctr).f.(sent := true),
               h := GOT.h.(carrier := Nobody, sender := Thread(2)))
  }

  lemma Taking(s: State, ctr: nat, c: Conn) returns (s': State)
    requires c == Busy(ctr + 2, 1, Nobody) && Now(s, Sent(ctr), c, Idle, Idle)
    ensures Takes(s, Step(2, OnMany(TakePending(0, 0))), s') && Now(s', Read(ctr), c, Idle, On(0, Taken(0)))
  {
    s' := State(s.reqs[0 := Read(ctr)], s.threads[2 := On(0, Taken(0))], c);
  }

  lemma Copying(s: State, ctr: nat, c: Conn) returns (ss: seq<State>, steps: seq<Step>)
    requires c == Busy(ctr + 2, 1, Nobody) && Now(s, Read(ctr), c, Idle, On(0, Taken(0)))
    ensures Leads(ss, steps) && |steps| == 4 && ss[0] == s
    ensures Now(ss[4], InIo(ctr), c, Idle, On(0, CopyDone(0, false, true)))
  {
    var q, locked := InIo(ctr), InIo(ctr).(f := InIo(ctr).f.(locked := true));
    var free, held := On(0, Copy(0, false, false)), On(0, Copy(0, false, true));
    var s1 := OnOne(s, Read(ctr), c, Idle, On(0, Taken(0)), 2, TooLarge(false), Out(c, free, q));
    var s2 := OnOne(s1, q, c, Idle, free, 2, CopyArgs(LockReq), Out(c, held, locked));
    var s3 := OnOne(s2, locked, c, Idle, held, 2, CopyArgs(UnlockReq), Out(c, free, q));
    var s4 := OnOne(s3, q, c, Idle, free, 2, CopyArgs(StopCopy(true)), Out(c, On(0, CopyDone(0, false, true)), q));
    Nothing(s);
    ss, steps := More([s], [], Step(2, OnReq(0, TooLarge(false))), s1);
    ss, steps := More(ss, steps, Step(2, OnReq(0, CopyArgs(LockReq))), s2);
    ss, steps := More(ss, steps, Step(2, OnReq(0, CopyArgs(UnlockReq))), s3);
    ss, steps := More(ss, steps, Step(2, OnReq(0, CopyArgs(StopCopy(true)))), s4);
  }

  lemma Sending(s: State, ctr: nat, c: Conn) returns (ss: seq<State>, steps: seq<Step>)
    requires c == Busy(ctr + 2, 1, Nobody) && Now(s, InIo(ctr), c, Idle, On(0, CopyDone(0, false, true)))
    ensures Leads(ss, steps) && |steps| == 3 && ss[0] == s && Now(ss[3], Processed(ctr, 1), c, Idle, Idle)
  {
    var put := On(0, Putting(DropRef, Return));
    var s1 := OnOne(s, InIo(ctr), c, Idle, On(0, CopyDone(0, false, true)), 2, Proceed,
                    Out(c, On(0, ReadSent), Processed(ctr, 2)));
    var s2 := OnOne(s1, Processed(ctr, 2), c, Idle, On(0, ReadSent), 2, Proceed, Out(c, put, Processed(ctr, 2)));
    var s3 := OnOne(s2, Processed(ctr, 2), c, Idle, put, 2, Proceed, Out(c, Idle, Processed(ctr, 1)));
    Nothing(s);
    ss, steps := More([s], [], Step(2, OnReq(0, Proceed)), s1);
    ss, steps := More(ss, steps, Step(2, OnReq(0, Proceed)), s2);
    ss, steps := More(ss, steps, Step(2, OnReq(0, Proceed)), s3);
  }

  function Answered(ctr: nat): Req {
    Processed(ctr, 1).(list := NoList, f := Processed(ctr, 1).f.(sent := false),
                       h := Processed(ctr, 1).h.(carrier := Thread(2)))
  }

  lemma Answering(s: State, ctr: nat, c: Conn) returns (ss: seq<State>, steps: seq<Step>)
    requires c == Busy(ctr + 2, 1, Nobody) && Now(s, Processed(ctr, 1), c, Idle, Idle)
    ensures Leads(ss, steps) && |steps| == 4 && ss[0] == s
      && Now(ss[4], Answered(ctr), c, Idle, On(0, Ending(EndTest, Return)))
  {
    var q := Answered(ctr).(list := Io(0));
    var locked, done := q.(f := q.f.(locked := true)), On(0, CopyDone(0, true, true));
    var s1 := OnOne(s, Processed(ctr, 1), c, Idle, Idle, 2, Pick(WriteFind(0)),
                    Out(c, On(0, Copy(0, true, true)), locked));
    var s2 := OnOne(s1, locked, c, Idle, On(0, Copy(0, true, true)), 2, CopyArgs(UnlockReq),
                    Out(c, On(0, Copy(0, true, false)), q));
    var s3 := OnOne(s2, q, c, Idle, On(0, Copy(0, true, false)), 2, CopyArgs(StopCopy(true)), Out(c, done, q));
    var s4 := OnOne(s3, q, c, Idle, done, 2, Proceed, Out(c, On(0, Ending(EndTest, Return)), Answered(ctr)));
    Nothing(s);
    ss, steps := More([s], [], Step(2, OnReq(0, Pick(WriteFind(0)))), s1);
    ss, steps := More(ss, steps, Step(2, OnReq(0, CopyArgs(UnlockReq))), s2);
    ss, steps := More(ss, steps, Step(2, OnReq(0, CopyArgs(StopCopy(true)))), s3);
    ss, steps := More(ss, steps, Step(2, OnReq(0, Proceed)), s4);
  }

  // ------------------------------------------------ completing

  // A request that thread t is about to complete
  predicate ToComplete(q: Req) {
    && q.list.NoList? && q.count == 1 && !q.f.finished && !q.f.interrupted && q.f.background && q.f.async && q.f.waiting
    && q.h.callbacks == 0
  }

  // Where thread t is, and what the other one does
  ghost predicate Doing(s: State, q: Req, c: Conn, t: Tid, pc: Pc, other: Pc) {
    if t == 1 then Now(s, q, c, pc, other) else t == 2 && Now(s, q, c, other, pc)
  }

  lemma OwnStep(s: State, q: Req, c: Conn, t: Tid, pc: Pc, other: Pc, x: Choice, o: Out) returns (s': State)
    requires Doing(s, q, c, t, pc, other) && LocalCan(t, c, pc, 0, q, x) && o == LocalDo(t, c, pc, 0, q, x)
    ensures Takes(s, Step(t, OnReq(0, x)), s') && Doing(s', o.q, o.c, t, o.pc, other)
  {
    s' := OnOne(s, q, c, if t == 1 then pc else other, if t == 1 then other else pc, t, x, o);
  }

  function Finished(q: Req, t: Tid): Req {
    q.(f := q.f.(finished := true), h := q.h.(completer := Thread(t), completions := q.h.completions + 1))
  }

  // Thread t, on the request at stage st, goes on to o.
  ghost predicate Does(c: Conn, t: Tid, st: Stage, q: Req, o: Out) {
    StageCan(c, st, q, Proceed) && StageDo(t, c, 0, st, q, Proceed) == o
  }

  lemma Proceeds(s: State, q: Req, c: Conn, t: Tid, st: Stage, other: Pc, o: Out) returns (s': State)
    requires Doing(s, q, c, t, On(0, st), other) && Does(c, t, st, q, o)
    ensures Takes(s, Step(t, OnReq(0, Proceed)), s') && Doing(s', o.q, o.c, t, o.pc, other)
  {
    s' := OwnStep(s, q, c, t, On(0, st), other, Proceed, o);
  }

  lemma ThreeSteps(s0: State, s1: State, s2: State, s3: State, x: Step) returns (ss: seq<State>, steps: seq<Step>)
    requires Takes(s0, x, s1) && Takes(s1, x, s2) && Takes(s2, x, s3)
    ensures Leads(ss, steps) && |steps| == 3 && ss == [s0, s1, s2, s3]
  {
    Nothing(s0);
    ss, steps := More([s0], [], x, s1);
    ss, steps := More(ss, steps, x, s2);
    ss, steps := More(ss, steps, x, s3);
  }

  lemma FinishValues(q: Req, c: Conn, t: Tid, k: Then)
    requires ToComplete(q) && c.bg.lock.Nobody?
    ensures var q1 := Finished(q, t);
            && Does(c, t, Ending(EndTest, k), q, Out(c, On(0, Ending(EndIntr, k)), q1))
            && Does(c, t, Ending(EndIntr, k), q1, Out(c, On(0, Ending(EndBody, k)), q1))
            && Does(c, t, Ending(EndBody, k), q1,
                    Out(c.(bg := Leave(c.bg).(lock := Thread(t))), On(0, Ending(EndFlush, k)),
                        q1.(f := q1.f.(background := false))))
  {
  }

  lemma Finishing(s: State, q: Req, c: Conn, t: Tid, k: Then, other: Pc) returns (ss: seq<State>, steps: seq<Step>)
    requires Doing(s, q, c, t, On(0, Ending(EndTest, k)), other) && ToComplete(q) && c.bg.lock.Nobody?
    ensures Leads(ss, steps) && |steps| == 3 && ss[0] == s
    ensures Doing(ss[3], Finished(q, t).(f := Finished(q, t).f.(background := false)),
                  c.(bg := Leave(c.bg).(lock := Thread(t))),
                  t, On(0, Ending(EndFlush, k)), other)
  {
    var q1, c' := Finished(q, t), c.(bg := Leave(c.bg).(lock := Thread(t)));
    FinishValues(q, c, t, k);
    var s1 := Proceeds(s, q, c, t, Ending(EndTest, k), other, Out(c, On(0, Ending(EndIntr, k)), q1));
    var s2 := Proceeds(s1, q1, c, t, Ending(EndIntr, k), other, Out(c, On(0, Ending(EndBody, k)), q1));
    var s3 := Proceeds(s2, q1, c, t, Ending(EndBody, k), other,
                       Out(c', On(0, Ending(EndFlush, k)), q1.(f := q1.f.(background := false))));
    ss, steps := ThreeSteps(s, s1, s2, s3, Step(t, OnReq(0, Proceed)));
  }

  lemma FlushExitOf(c: Conn, t: Tid, k: Then)
    requires c.bg.lock.Nobody?
    ensures ConnDo(t, c.(bg := Leave(c.bg).(lock := Thread(t))), On(0, Ending(EndFlush, k)), FlushExit) ==
            (c.(bg := Leave(c.bg)), On(0, Ending(EndCallback, k)))
  {
  }

  lemma Unlocking(s: State, q: Req, c: Conn, t: Tid, k: Then, other: Pc) returns (s': State)
    requires Doing(s, q, c.(bg := Leave(c.bg).(lock := Thread(t))), t, On(0, Ending(EndFlush, k)), other)
    requires !q.list.BgQueue? && c.bg.lock.Nobody?
    ensures Takes(s, Step(t, OnConn(FlushExit)), s')
    ensures Doing(s', q, c.(bg := Leave(c.bg)), t, On(0, Ending(EndCallback, k)), other)
  {
    var p1 := if t == 1 then On(0, Ending(EndFlush, k)) else other;
    var p2 := if t == 1 then other else On(0, Ending(EndFlush, k));
    FlushExitOf(c, t, k);
    s' := FlushEnds(s, q, c.(bg := Leave(c.bg).(lock := Thread(t))), p1, p2, t, c.(bg := Leave(c.bg)),
                    On(0, Ending(EndCallback, k)));
  }

  // The request after its callback has run and its last reference is gone
  function Dead(q: Req, t: Tid): Req {
    q.(count := 0, f := q.f.(waiting := false), h := q.h.(callbacks := q.h.callbacks + 1, freer := Thread(t)))
  }

  function Called(q: Req): Req { q.(h := q.h.(callbacks := q.h.callbacks + 1)) }

  function Dropped(q: Req, t: Tid): Req { Called(q).(count := 0, h := Called(q).h.(freer := Thread(t))) }

  lemma DropValues(q: Req, c: Conn, t: Tid, k: Then)
    requires q.count == 1 && q.f.async && q.f.waiting
    ensures Does(c, t, Ending(EndCallback, k), q, Out(c, On(0, Putting(DropRef, k)), Called(q)))
    ensures Does(c, t, Putting(DropRef, k), Called(q), Out(c, On(0, Putting(LastRef, k)), Dropped(q, t)))
    ensures Does(c, t, Putting(LastRef, k), Dropped(q, t),
                 Out(c.(numWaiting := c.numWaiting - 1), On(0, Putting(FreeReq, k)), Dead(q, t)))
  {
  }

  lemma Dropping(s: State, q: Req, c: Conn, t: Tid, k: Then, other: Pc) returns (ss: seq<State>, steps: seq<Step>)
    requires Doing(s, q, c, t, On(0, Ending(EndCallback, k)), other) && q.count == 1 && q.f.async && q.f.waiting
    ensures Leads(ss, steps) && |steps| == 3 && ss[0] == s
    ensures Doing(ss[3], Dead(q, t), c.(numWaiting := c.numWaiting - 1), t, On(0, Putting(FreeReq, k)), other)
  {
    DropValues(q, c, t, k);
    var s1 := Proceeds(s, q, c, t, Ending(EndCallback, k), other, Out(c, On(0, Putting(DropRef, k)), Called(q)));
    var s2 := Proceeds(s1, Called(q), c, t, Putting(DropRef, k), other,
                       Out(c, On(0, Putting(LastRef, k)), Dropped(q, t)));
    var s3 := Proceeds(s2, Dropped(q, t), c, t, Putting(LastRef, k), other,
                       Out(c.(numWaiting := c.numWaiting - 1), On(0, Putting(FreeReq, k)), Dead(q, t)));
    ss, steps := ThreeSteps(s, s1, s2, s3, Step(t, OnReq(0, Proceed)));
  }

  // Where the threads are once the request is gone
  ghost predicate Gone(s: State, c: Conn, t: Tid, pc: Pc, other: Pc) {
    if t == 1 then Before(s, c, pc, other) else t == 2 && Before(s, c, other, pc)
  }

  lemma FreeingOne(s: State, q: Req, c: Conn, t: Tid, k: Then, other: Pc) returns (s': State)
    requires Doing(s, q, c, t, On(0, Putting(FreeReq, k)), other)
    ensures Takes(s, Step(t, OnMany(Freeing)), s') && Gone(s', c, t, AfterPut(k), other)
  {
    s' := State(s.reqs - {0}, s.threads[t := AfterPut(k)], c);
    assert s'.reqs == map[];
  }

  lemma Join(ss: seq<State>, steps: seq<Step>, ss': seq<State>, steps': seq<Step>)
    returns (all: seq<State>, both: seq<Step>)
    requires Leads(ss, steps) && Leads(ss', steps') && ss[|ss| - 1] == ss'[0]
    ensures Leads(all, both) && |both| == |steps| + |steps'| && all == ss[..|steps|] + ss' && all[0] == ss[0]
  {
    all, both := ss[..|steps|] + ss', steps + steps';
    forall k | 0 <= k < |both| ensures Takes(all[k], both[k], all[k + 1]) {
      if k >= |steps| {
        var j := k - |steps|;
        assert all[k] == ss'[j] && all[k + 1] == ss'[j + 1] && both[k] == steps'[j];
      } else {
        assert all[k] == ss[k] && all[k + 1] == ss[k + 1] && both[k] == steps[k];
      }
    }
  }

  lemma Finishes(s: State, q: Req, c: Conn, t: Tid, k: Then, other: Pc) returns (ss: seq<State>, steps: seq<Step>)
    requires Doing(s, q, c, t, On(0, Ending(EndTest, k)), other) && ToComplete(q) && c.bg.lock.Nobody?
    ensures Leads(ss, steps) && |steps| == 4 && ss[0] == s
    ensures Doing(ss[4], Finished(q, t).(f := Finished(q, t).f.(background := false)), c.(bg := Leave(c.bg)), t,
                  On(0, Ending(EndCallback, k)), other)
  {
    var s1, x1 := Finishing(s, q, c, t, k, other);
    var s2 := Unlocking(s1[3], Finished(q, t).(f := Finished(q, t).f.(background := false)), c, t, k, other);
    ss, steps := More(s1, x1, Step(t, OnConn(FlushExit)), s2);
  }

  lemma Drops(s: State, q: Req, c: Conn, t: Tid, k: Then, other: Pc) returns (ss: seq<State>, steps: seq<Step>)
    requires Doing(s, q, c, t, On(0, Ending(EndCallback, k)), other) && q.count == 1 && q.f.async && q.f.waiting
    ensures Leads(ss, steps) && |steps| == 4 && ss[0] == s
      && Gone(ss[4], c.(numWaiting := c.numWaiting - 1), t, AfterPut(k), other)
  {
    var s1, x1 := Dropping(s, q, c, t, k, other);
    var s2 := FreeingOne(s1[3], Dead(q, t), c.(numWaiting := c.numWaiting - 1), t, k, other);
    ss, steps := More(s1, x1, Step(t, OnMany(Freeing)), s2);
  }

  // From fuse_request_end to the free: eight steps
  lemma Completing(s: State, q: Req, c: Conn, t: Tid, k: Then, other: Pc) returns (ss: seq<State>, steps: seq<Step>)
    requires Doing(s, q, c, t, On(0, Ending(EndTest, k)), other) && ToComplete(q) && c.bg.lock.Nobody?
    ensures Leads(ss, steps) && |steps| == 8 && ss[0] == s
    ensures Gone(ss[8], c.(bg := Leave(c.bg), numWaiting := c.numWaiting - 1), t, AfterPut(k), other)
  {
    var q1 := Finished(q, t).(f := Finished(q, t).f.(background := false));
    var s1, x1 := Finishes(s, q, c, t, k, other);
    var s2, x2 := Drops(s1[4], q1, c.(bg := Leave(c.bg)), t, k, other);
    ss, steps := Join(s1, x1, s2, x2);
  }

  // ------------------------------------------------ aborting with a request pending

  function Aborting(c: Conn): Conn { c.(connected := false, aborter := Thread(1), abortPhase := 1) }

  function Disconnected(c: Conn): Conn { Aborting(c).(initialized := true, devs := map[0 := Dev(false, true)]) }

  function Unlimited(c: Conn, lock: Who, phase: nat): Conn {
    Disconnected(c).(bg := Unlimit(c.bg).(lock := lock), abortPhase := phase)
  }

  function Aborted(c: Conn): Conn { Unlimited(c, Nobody, 4).(fiqConnected := false) }

  function Moved(q: Req): Req { q.(list := ToEnd(1), f := q.f.(pending := false)) }

  lemma Disconnecting(s: State, q: Req, c: Conn) returns (ss: seq<State>, steps: seq<Step>)
    requires Now(s, q, c, Idle, Idle) && c.connected && c.bg.lock.Nobody? && c.devs == map[0 := Dev(true, true)]
      && q.list.Pending?
    ensures Leads(ss, steps) && |steps| == 2 && ss[0] == s && Now(ss[2], q, Disconnected(c), AbortDevs({}), Idle)
  {
    var s1 := State(s.reqs, s.threads[1 := AbortDevs({0})], Aborting(c));
    var s2 := State(s.reqs, s1.threads[1 := AbortDevs({})], Disconnected(c));
    assert c.devs.Keys == {0};
    assert map[0 := Dev(true, true)][0 := Dev(false, true)] == map[0 := Dev(false, true)];
    assert {0} - {0} == {};
    assert (map r | r in s.reqs :: AbortOnDev(s.reqs[r], 0, 1)) == s.reqs;
    Nothing(s);
    ss, steps := More([s], [], Step(1, OnConn(AbortStart)), s1);
    ss, steps := More(ss, steps, Step(1, OnMany(AbortDev(0))), s2);
  }

  lemma LettingGo(s: State, q: Req, c: Conn) returns (ss: seq<State>, steps: seq<Step>)
    requires Now(s, q, Disconnected(c), AbortDevs({}), Idle) && c.bg.lock.Nobody? && q.list.Pending?
    ensures Leads(ss, steps) && |steps| == 2 && ss[0] == s && Now(ss[2], q, Unlimited(c, Nobody, 3), AbortFiq, Idle)
  {
    var s1 := State(s.reqs, s.threads[1 := Flushing(true)], Unlimited(c, Thread(1), 2));
    var s2 := FlushEnds(s1, q, Unlimited(c, Thread(1), 2), Flushing(true), Idle, 1, Unlimited(c, Nobody, 3), AbortFiq);
    Nothing(s);
    ss, steps := More([s], [], Step(1, OnConn(AbortBg)), s1);
    ss, steps := More(ss, steps, Step(1, OnConn(FlushExit)), s2);
  }

  lemma Collecting(s: State, q: Req, c: Conn) returns (s': State)
    requires Now(s, q, Unlimited(c, Nobody, 3), AbortFiq, Idle) && q.list.Pending?
    ensures Takes(s, Step(1, OnMany(AbortPendingQueue)), s') && Now(s', Moved(q), Aborted(c), NextReq(false), Idle)
  {
    s' := State(map r | r in s.reqs :: AbortPending(s.reqs[r], 1), s.threads[1 := NextReq(false)], Aborted(c));
  }

  // The request with the thread that ends it
  function Carried(q: Req): Req { Moved(q).(list := NoList, h := q.h.(carrier := Thread(1))) }

  lemma NextOne(s: State, q: Req, c: Conn) returns (s': State)
    requires Now(s, Moved(q), c, NextReq(false), Idle) && !q.f.priv && !q.f.sent
    ensures Takes(s, Step(1, OnReq(0, Proceed)), s')
      && Now(s', Carried(q), c, On(0, Ending(EndTest, NextToEnd(false))), Idle)
  {
    s' := OnOne(s, Moved(q), c, NextReq(false), Idle, 1, Proceed,
                Out(c, On(0, Ending(EndTest, NextToEnd(false))), Carried(q)));
  }

  lemma EndOfAbort(s: State, c: Conn) returns (s': State)
    requires Before(s, c, NextReq(false), Idle)
    ensures Takes(s, Step(1, OnConn(EndExit)), s') && Before(s', c, Idle, Idle)
  {
    s' := State(s.reqs, s.threads[1 := Idle], c);
  }

  // ------------------------------------------------ the run

  lemma Submitting(s: State, ctr: nat) returns (ss: seq<State>, steps: seq<Step>)
    requires Before(s, Ready(ctr), Idle, Idle)
    ensures Leads(ss, steps) && |steps| == 7 && ss[0] == s
      && Now(ss[7], Sent(ctr), Busy(ctr + 2, 1, Nobody), Idle, Idle)
  {
    var s1, x1 := Entering(s, ctr);
    var s2 := Allocating(s1[3], Ready(ctr).(numWaiting := 1));
    var s3, x3 := Queueing(s2, ctr);
    ss, steps := More(s1, x1, Step(1, OnMany(AllocGet(0, true, true))), s2);
    ss, steps := Join(ss, steps, s3, x3);
  }

  lemma Delivering(s: State, ctr: nat) returns (ss: seq<State>, steps: seq<Step>)
    requires Now(s, Sent(ctr), Busy(ctr + 2, 1, Nobody), Idle, Idle)
    ensures Leads(ss, steps) && |steps| == 8 && ss[0] == s
      && Now(ss[8], Processed(ctr, 1), Busy(ctr + 2, 1, Nobody), Idle, Idle)
  {
    var c := Busy(ctr + 2, 1, Nobody);
    var s1 := Taking(s, ctr, c);
    var s2, x2 := Copying(s1, ctr, c);
    var s3, x3 := Sending(s2[4], ctr, c);
    Nothing(s);
    ss, steps := More([s], [], Step(2, OnMany(TakePending(0, 0))), s1);
    ss, steps := Join(ss, steps, s2, x2);
    ss, steps := Join(ss, steps, s3, x3);
  }

  lemma Replying(s: State, ctr: nat) returns (ss: seq<State>, steps: seq<Step>)
    requires Now(s, Processed(ctr, 1), Busy(ctr + 2, 1, Nobody), Idle, Idle)
    ensures Leads(ss, steps) && |steps| == 12 && ss[0] == s && Before(ss[12], Ready(ctr + 2), Idle, Idle)
  {
    var c := Busy(ctr + 2, 1, Nobody);
    var s1, x1 := Answering(s, ctr, c);
    var s2, x2 := Completing(s1[4], Answered(ctr), c, 2, Return, Idle);
    ss, steps := Join(s1, x1, s2, x2);
  }

  lemma AbortingOne(s: State, ctr: nat) returns (ss: seq<State>, steps: seq<Step>)
    requires Now(s, Sent(ctr), Busy(ctr + 2, 1, Nobody), Idle, Idle)
    ensures Leads(ss, steps) && |steps| == 15 && ss[0] == s && ss[15].reqs == map[] && ss[15].conn.abortPhase == 4
    ensures ss[15].conn.numWaiting == 0 && ss[15].conn.bg.num == 0
  {
    var c, q := Busy(ctr + 2, 1, Nobody), Sent(ctr);
    var s1, x1 := Disconnecting(s, q, c);
    var s2, x2 := LettingGo(s1[2], q, c);
    var s3 := Collecting(s2[2], q, c);
    var s4 := NextOne(s3, q, Aborted(c));
    var s5, x5 := Completing(s4, Carried(q), Aborted(c), 1, NextToEnd(false), Idle);
    var s6 := EndOfAbort(s5[8], Aborted(c).(bg := Leave(Aborted(c).bg), numWaiting := 0));
    ss, steps := Join(s1, x1, s2, x2);
    ss, steps := More(ss, steps, Step(1, OnMany(AbortPendingQueue)), s3);
    ss, steps := More(ss, steps, Step(1, OnReq(0, Proceed)), s4);
    ss, steps := Join(ss, steps, s5, x5);
    ss, steps := More(ss, steps, Step(1, OnConn(EndExit)), s6);
  }

  lemma FirstRequest() returns (ss: seq<State>, steps: seq<Step>)
    ensures Leads(ss, steps) && |steps| == 28 && Init(ss[0]) && Before(ss[28], Ready(2), Idle, Idle)
    ensures 0 in ss[16].reqs && ss[16].reqs[0].list == Processing(0)
  {
    var s0, x0 := Begin();
    var s1, x1 := Submitting(s0[1], 0);
    var s2, x2 := Delivering(s1[7], 0);
    var s3, x3 := Replying(s2[8], 0);
    ss, steps := Join(s0, x0, s1, x1);
    ss, steps := Join(ss, steps, s2, x2);
    ss, steps := Join(ss, steps, s3, x3);
  }

  lemma SecondRequest(s: State) returns (ss: seq<State>, steps: seq<Step>)
    requires Before(s, Ready(2), Idle, Idle)
    ensures Leads(ss, steps) && |steps| == 22 && ss[0] == s && 0 in ss[7].reqs && ss[7].reqs[0].list == Pending
    ensures ss[22].reqs == map[] && ss[22].conn.abortPhase == 4 && ss[22].conn.numWaiting == 0
      && ss[22].conn.bg.num == 0
  {
    var s1, x1 := Submitting(s, 2);
    var s2, x2 := AbortingOne(s1[7], 2);
    ss, steps := Join(s1, x1, s2, x2);
  }

  // The first request is answered and freed, the second one ended by the abort; then nothing is left.
  lemma WholeLife() returns (ss: seq<State>, steps: seq<Step>)
    ensures Run(ss, steps) && |steps| == 50
    ensures 0 in ss[16].reqs && ss[16].reqs[0].list == Processing(0) && ss[28].reqs == map[]
    ensures 0 in ss[35].reqs && ss[35].reqs[0].list == Pending
    ensures ss[50].reqs == map[] && ss[50].conn.abortPhase == 4 && ss[50].conn.numWaiting == 0
      && ss[50].conn.bg.num == 0
  {
    var s1, x1 := FirstRequest();
    var s2, x2 := SecondRequest(s1[28]);
    ss, steps := Join(s1, x1, s2, x2);
    LeadsRun(ss, steps);
  }
}
