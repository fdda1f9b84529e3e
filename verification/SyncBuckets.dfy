// fuse_sync_fs_writes of inode.c: syncfs waits for the writes that were registered before it, by closing the current
// bucket of writes and waiting for its count, in which the buckets before it have a share.
module SyncBuckets {
  import opened Counting

  type Wid = nat   // one write from fuse_writepage_add_to_bucket to fuse_sync_bucket_dec
  type Sid = nat   // one call of fuse_sync_fs_writes

  // Whether a bucket is fc->curr_bucket, or how far the call that closed it has got
  datatype Stage = Open | Dropping(s: Sid) | Waiting(s: Sid) | Over

  datatype Bucket = Bucket(count: int, stage: Stage)

  // Got: the pointer read, which may be stale by now
  datatype Write = Got(b: nat) | In(b: nat) | Released

  // before: the writes registered when the call was made
  datatype Call = Called(before: set<Wid>) | Locked(before: set<Wid>) | Closed(b: nat, before: set<Wid>)
                | Waits(b: nat, before: set<Wid>) | Returned(before: set<Wid>)

  datatype Who = Nobody | Holder(s: Sid)

  // The buckets in the order of their creation; the last is the current one.  lock is fc->lock.
  datatype State = State(buckets: seq<Bucket>, writes: map<Wid, Write>, calls: map<Sid, Call>, lock: Who)

  datatype Step =
    | ReadPointer(w: Wid) | TryInc(w: Wid) | Release(w: Wid)
    | Call(s: Sid) | Check(s: Sid) | Publish(s: Sid) | Drop(s: Sid) | Wake(s: Sid)

  function Curr(s: State): int { |s.buckets| - 1 }

  ghost function Registered(ws: map<Wid, Write>): set<Wid> { set w | w in ws && ws[w].In? }

  ghost predicate Can(s: State, a: Step) {
    s.buckets != [] &&
    match a
    case ReadPointer(w) => w !in s.writes
    case TryInc(w) => w in s.writes && s.writes[w].Got? && s.writes[w].b < |s.buckets|
    case Release(w) => w in s.writes && s.writes[w].In? && s.writes[w].b < |s.buckets|
    case Call(c) => c !in s.calls
    case Check(c) => c in s.calls && s.calls[c].Called? && s.lock.Nobody?
    case Publish(c) => c in s.calls && s.calls[c].Locked? && s.lock == Holder(c)
    case Drop(c) => c in s.calls && s.calls[c].Closed? && s.calls[c].b < |s.buckets|
    case Wake(c) =>
      c in s.calls && s.calls[c].Waits? && s.calls[c].b + 1 < |s.buckets| && s.buckets[s.calls[c].b].count == 0
  }

  function Add(bs: seq<Bucket>, b: nat, n: int): seq<Bucket>
    requires b < |bs|
  {
    bs[b := bs[b].(count := bs[b].count + n)]
  }

  ghost function Next(s: State, a: Step): State
    requires Can(s, a)
  {
    match a
    // fuse_writepage_add_to_bucket: a write that finds its bucket dead reads the pointer again
    case ReadPointer(w) => s.(writes := s.writes[w := Got(Curr(s))])
    case TryInc(w) =>
      var b := s.writes[w].b;
      if s.buckets[b].count == 0 then s.(writes := s.writes - {w})
      else s.(writes := s.writes[w := In(b)], buckets := Add(s.buckets, b, 1))
    case Release(w) => s.(writes := s.writes[w := Released], buckets := Add(s.buckets, s.writes[w].b, -1))
    case Call(c) => s.(calls := s.calls[c := Called(Registered(s.writes))])
    case Check(c) =>
      if s.buckets[Curr(s)].count == 1 then s.(calls := s.calls[c := Returned(s.calls[c].before)])
      else s.(calls := s.calls[c := Locked(s.calls[c].before)], lock := Holder(c))
    case Publish(c) =>
      State(s.buckets[Curr(s) := s.buckets[Curr(s)].(stage := Dropping(c))] + [Bucket(2, Open)], s.writes,
            s.calls[c := Closed(Curr(s), s.calls[c].before)], Nobody)
    case Drop(c) =>
      var b := s.calls[c].b;
      s.(buckets := s.buckets[b := Bucket(s.buckets[b].count - 1, Waiting(c))],
         calls := s.calls[c := Waits(b, s.calls[c].before)])
    case Wake(c) =>
      var b := s.calls[c].b;
      s.(buckets := Add(s.buckets[b := s.buckets[b].(stage := Over)], b + 1, -1),
         calls := s.calls[c := Returned(s.calls[c].before)])
  }

  ghost predicate Init(s: State) { s == State([Bucket(1, Open)], map[], map[], Nobody) }

  // ------------------------------------------------ the invariant

  ghost function Writers(ws: map<Wid, Write>, b: nat): set<Wid> { Where(ws, (w: Write) => w == In(b)) }

  predicate Active(st: Stage) { st.Open? || st.Dropping? }

  // The count of a bucket: its writes, one while it is current or about to be dropped, and one until every earlier
  // bucket is over.
  ghost predicate CountOk(bs: seq<Bucket>, ws: map<Wid, Write>, b: nat)
    requires b < |bs|
  {
    && bs[b].count == |Writers(ws, b)| + B(Active(bs[b].stage)) + B(b > 0 && !bs[b - 1].stage.Over?)
    && (bs[b].stage.Over? ==> bs[b].count == 0)
    && (bs[b].stage.Open? <==> b == |bs| - 1)
  }

  // A write that the call waits for has been released or is in a bucket up to b.
  predicate WaitedFor(ws: map<Wid, Write>, w: Wid, b: int) {
    w in ws && (ws[w].Released? || (ws[w].In? && ws[w].b <= b))
  }

  ghost predicate CallOk(s: State, c: Sid, call: Call) {
    match call
    case Called(before) => forall w | w in before :: WaitedFor(s.writes, w, Curr(s))
    case Locked(before) => s.lock == Holder(c) && forall w | w in before :: WaitedFor(s.writes, w, Curr(s))
    case Closed(b, before) =>
      b < |s.buckets| && s.buckets[b].stage == Dropping(c) && forall w | w in before :: WaitedFor(s.writes, w, b)
    case Waits(b, before) =>
      b + 1 < |s.buckets| && s.buckets[b].stage == Waiting(c) && forall w | w in before :: WaitedFor(s.writes, w, b)
    case Returned(before) => forall w | w in before :: WaitedFor(s.writes, w, -1)
  }

  ghost predicate Inv(s: State) {
    && s.buckets != []
    && (forall b | 0 <= b < |s.buckets| :: CountOk(s.buckets, s.writes, b))
    && (forall w | w in s.writes && !s.writes[w].Released? :: s.writes[w].b < |s.buckets|)
    && (forall c | c in s.calls :: CallOk(s, c, s.calls[c]))
  }

  lemma WritersStep(ws: map<Wid, Write>, w: Wid, x: Write, b: nat)
    ensures |Writers(ws[w := x], b)| == |Writers(ws, b)| - B(w in ws && ws[w] == In(b)) + B(x == In(b))
    ensures w in ws && ws[w] == In(b) ==> |Writers(ws, b)| >= 1
  {
    WhereStep(ws, (y: Write) => y == In(b), w, x);
  }

  // A bucket that is over, or whose count is zero, has no writes, and neither has any bucket before it.
  lemma {:induction false} NoneBelow(s: State, b: nat, w: Wid)
    requires Inv(s) && b < |s.buckets| && s.buckets[b].count == 0
    ensures w in s.writes && s.writes[w].In? ==> s.writes[w].b > b
  {
    assert CountOk(s.buckets, s.writes, b);
    if w in s.writes && s.writes[w] == In(b) {
      WritersStep(s.writes, w, s.writes[w], b);
    }
    if b > 0 {
      assert CountOk(s.buckets, s.writes, b - 1);
      NoneBelow(s, b - 1, w);
    }
  }

  // With nothing but its own count the current bucket has no writes, and all earlier ones are over.
  lemma NoneOutstanding(s: State, w: Wid)
    requires Inv(s) && s.buckets[Curr(s)].count == 1
    ensures w in s.writes ==> !s.writes[w].In?
  {
    var b := Curr(s);
    assert CountOk(s.buckets, s.writes, b);
    if w in s.writes && s.writes[w] == In(b) {
      WritersStep(s.writes, w, s.writes[w], b);
    }
    if b > 0 {
      assert CountOk(s.buckets, s.writes, b - 1);
      NoneBelow(s, b - 1, w);
    }
  }

  // ------------------------------------------------ every step keeps it

  lemma WriteCounts(s: State, a: Step, b: nat)
    requires Can(s, a) && b < |s.buckets| && CountOk(s.buckets, s.writes, b)
      && (a.ReadPointer? || a.TryInc? || a.Release?)
    ensures CountOk(Next(s, a).buckets, Next(s, a).writes, b)
  {
    match a
    case ReadPointer(w) => WritersStep(s.writes, w, Got(Curr(s)), b);
    case TryInc(w) =>
      WritersStep(s.writes, w, In(s.writes[w].b), b);
      WhereMinus(s.writes, (y: Write) => y == In(b), w);
    case Release(w) => WritersStep(s.writes, w, Released, b);
  }

  lemma WakeCounts(s: State, c: Sid, b: nat)
    requires Can(s, Wake(c)) && b < |s.buckets| && CountOk(s.buckets, s.writes, b) && CallOk(s, c, s.calls[c])
    requires CountOk(s.buckets, s.writes, s.calls[c].b)
    ensures CountOk(Next(s, Wake(c)).buckets, s.writes, b)
  {
  }

  lemma CountsKeep(s: State, a: Step, b: nat)
    requires Inv(s) && Can(s, a) && b < |Next(s, a).buckets|
    ensures CountOk(Next(s, a).buckets, Next(s, a).writes, b)
  {
    if b < |s.buckets| {
      assert CountOk(s.buckets, s.writes, b);
    }
    match a
    case Publish(c) => PublishCounts(s, c, b);
    case Drop(c) => assert CallOk(s, c, s.calls[c]);
    case Wake(c) =>
      assert CallOk(s, c, s.calls[c]) && CountOk(s.buckets, s.writes, s.calls[c].b);
      WakeCounts(s, c, b);
    case Call(_) =>
    case Check(_) =>
    case _ => WriteCounts(s, a, b);
  }

  lemma PublishCounts(s: State, c: Sid, b: nat)
    requires Inv(s) && Can(s, Publish(c)) && b <= |s.buckets|
    ensures CountOk(Next(s, Publish(c)).buckets, s.writes, b)
  {
    if b == |s.buckets| {
      forall w | w in s.writes ensures s.writes[w] != In(b) {
        assert !s.writes[w].Released? ==> s.writes[w].b < |s.buckets|;
      }
      assert Writers(s.writes, b) == {};
    } else {
      assert CountOk(s.buckets, s.writes, b);
    }
  }

  lemma WaitedStays(s: State, a: Step, w: Wid, b: int)
    requires Can(s, a) && WaitedFor(s.writes, w, b)
    ensures WaitedFor(Next(s, a).writes, w, b)
  {
  }

  // A call that does not take the step keeps its bucket.
  lemma OtherCall(s: State, a: Step, c: Sid)
    requires Inv(s) && Can(s, a) && c in s.calls && Next(s, a).calls[c] == s.calls[c]
    ensures CallOk(Next(s, a), c, s.calls[c])
  {
    var s' := Next(s, a);
    assert CallOk(s, c, s.calls[c]);
    forall w, b: int | w in s.calls[c].before && WaitedFor(s.writes, w, b) ensures WaitedFor(s'.writes, w, b) {
      WaitedStays(s, a, w, b);
    }
    match a
    case Publish(x) =>
      assert CountOk(s.buckets, s.writes, Curr(s));
      assert CallOk(s, x, s.calls[x]);
    case Drop(x) => assert CallOk(s, x, s.calls[x]);
    case Wake(x) => assert CallOk(s, x, s.calls[x]);
    case _ =>
  }

  lemma OwnCall(s: State, a: Step, c: Sid)
    requires Inv(s) && Can(s, a) && c in s.calls && (a == Check(c) || a == Publish(c) || a == Drop(c) || a == Wake(c))
    ensures CallOk(Next(s, a), c, Next(s, a).calls[c])
  {
    assert CallOk(s, c, s.calls[c]);
    if a.Drop? {
      assert CountOk(s.buckets, s.writes, s.calls[c].b);
    }
    forall w | w in s.calls[c].before && Next(s, a).calls[c].Returned? ensures WaitedFor(s.writes, w, -1) {
      if a.Check? {
        NoneOutstanding(s, w);
      } else {
        NoneBelow(s, s.calls[c].b, w);
      }
    }
  }

  lemma CallsKeep(s: State, a: Step, c: Sid)
    requires Inv(s) && Can(s, a) && c in Next(s, a).calls
    ensures CallOk(Next(s, a), c, Next(s, a).calls[c])
  {
    if a == Check(c) || a == Publish(c) || a == Drop(c) || a == Wake(c) {
      OwnCall(s, a, c);
    } else if c in s.calls {
      OtherCall(s, a, c);
    } else {
      forall w | w in Registered(s.writes) ensures s.writes[w].b <= Curr(s) {
        assert !s.writes[w].Released?;
      }
    }
  }

  lemma StepKeeps(s: State, a: Step)
    requires Inv(s) && Can(s, a)
    ensures Inv(Next(s, a))
  {
    var s' := Next(s, a);
    forall b | 0 <= b < |s'.buckets| ensures CountOk(s'.buckets, s'.writes, b) {
      CountsKeep(s, a, b);
    }
    forall c | c in s'.calls ensures CallOk(s', c, s'.calls[c]) {
      CallsKeep(s, a, c);
    }
  }

  ghost predicate Run(ss: seq<State>, steps: seq<Step>) {
    && |ss| == |steps| + 1 && Init(ss[0])
    && forall i | 0 <= i < |steps| :: Can(ss[i], steps[i]) && ss[i + 1] == Next(ss[i], steps[i])
  }

  lemma {:induction false} RunKeeps(ss: seq<State>, steps: seq<Step>, i: nat)
    requires Run(ss, steps) && i < |ss|
    ensures Inv(ss[i])
  {
    if i == 0 {
      assert Writers(ss[0].writes, 0) == {};
    } else {
      RunKeeps(ss, steps, i - 1);
      StepKeeps(ss[i - 1], steps[i - 1]);
    }
  }

  // ------------------------------------------------ what syncfs guarantees

  // What a call has noted stays what was registered when it was made.
  lemma {:induction false} BeforeKept(ss: seq<State>, steps: seq<Step>, i: nat, j: nat, c: Sid)
    requires Run(ss, steps) && i <= j < |ss| && c in ss[i].calls
    ensures c in ss[j].calls && ss[j].calls[c].before == ss[i].calls[c].before
  {
    if i < j {
      BeforeKept(ss, steps, i, j - 1, c);
    }
  }

  // When a call made at moment i has returned by moment j, every write that was registered at i has been released.
  lemma SyncWaitsForAll(ss: seq<State>, steps: seq<Step>, i: nat, j: nat, c: Sid, w: Wid)
    requires Run(ss, steps) && i < j < |ss| && steps[i] == Call(c) && c in ss[j].calls && ss[j].calls[c].Returned?
    requires w in ss[i].writes && ss[i].writes[w].In?
    ensures w in ss[j].writes && ss[j].writes[w].Released?
  {
    BeforeKept(ss, steps, i + 1, j, c);
    assert w in ss[j].calls[c].before;
    RunKeeps(ss, steps, j);
    assert CallOk(ss[j], c, ss[j].calls[c]);
  }

  // The warning about the current bucket is not reached: its count is at least one.  No count is ever negative.
  lemma CountsPositive(ss: seq<State>, steps: seq<Step>, i: nat, b: nat)
    requires Run(ss, steps) && i < |ss| && b < |ss[i].buckets|
    ensures ss[i].buckets[b].count >= 0 && ss[i].buckets[Curr(ss[i])].count >= 1
  {
    RunKeeps(ss, steps, i);
    assert CountOk(ss[i].buckets, ss[i].writes, b);
    assert CountOk(ss[i].buckets, ss[i].writes, Curr(ss[i]));
  }

  // A write that still holds a stale pointer cannot revive a dead bucket: once zero, a count stays zero.
  lemma DeadStaysDead(s: State, a: Step, b: nat)
    requires Inv(s) && Can(s, a) && b < |s.buckets| && s.buckets[b].count == 0
    ensures Next(s, a).buckets[b].count == 0
  {
    StepKeeps(s, a);
    var s' := Next(s, a);
    assert CountOk(s.buckets, s.writes, b);
    if a.Release? {
      NoneBelow(s, b, a.w);
    }
  }

  // ------------------------------------------------ a run

  ghost predicate Takes(s: State, a: Step, s': State) { Can(s, a) && Next(s, a) == s' }

  // A write is registered; a syncfs call closes its bucket and waits; the write ends and the call returns.
  function Bucket0(): State { State([Bucket(1, Open)], map[], map[], Nobody) }

  function WithWrite(count: int, st: Stage, w: Write, calls: map<Sid, Call>, lock: Who): State {
    State([Bucket(count, st)], map[0 := w], calls, lock)
  }

  function Closing(count: int, st: Stage, next: int, w: Write, call: Call): State {
    State([Bucket(count, st), Bucket(next, Open)], map[0 := w], map[0 := call], Nobody)
  }

  lemma Registering()
    ensures Init(Bucket0()) && Takes(Bucket0(), ReadPointer(0), WithWrite(1, Open, Got(0), map[], Nobody))
    ensures Takes(WithWrite(1, Open, Got(0), map[], Nobody), TryInc(0), WithWrite(2, Open, In(0), map[], Nobody))
  {
    assert map[][0 := Got(0)] == map[0 := Got(0)] && map[0 := Got(0)][0 := In(0)] == map[0 := In(0)];
  }

  lemma Calling()
    ensures Takes(WithWrite(2, Open, In(0), map[], Nobody), Call(0),
                  WithWrite(2, Open, In(0), map[0 := Called({0})], Nobody))
    ensures Takes(WithWrite(2, Open, In(0), map[0 := Called({0})], Nobody), Check(0),
                  WithWrite(2, Open, In(0), map[0 := Locked({0})], Holder(0)))
  {
    assert Registered(map[0 := In(0)]) == {0};
    assert map[][0 := Called({0})] == map[0 := Called({0})];
    assert map[0 := Called({0})][0 := Locked({0})] == map[0 := Locked({0})];
  }

  lemma ClosingOne()
    ensures Takes(WithWrite(2, Open, In(0), map[0 := Locked({0})], Holder(0)), Publish(0),
                  Closing(2, Dropping(0), 2, In(0), Closed(0, {0})))
    ensures Takes(Closing(2, Dropping(0), 2, In(0), Closed(0, {0})), Drop(0),
                  Closing(1, Waiting(0), 2, In(0), Waits(0, {0})))
  {
    assert map[0 := Locked({0})][0 := Closed(0, {0})] == map[0 := Closed(0, {0})];
    assert map[0 := Closed(0, {0})][0 := Waits(0, {0})] == map[0 := Waits(0, {0})];
    assert [Bucket(2, Open)][0 := Bucket(2, Dropping(0))] + [Bucket(2, Open)] ==
      [Bucket(2, Dropping(0)), Bucket(2, Open)];
    assert [Bucket(2, Dropping(0)), Bucket(2, Open)][0 := Bucket(1, Waiting(0))] ==
      [Bucket(1, Waiting(0)), Bucket(2, Open)];
  }

  lemma Returning()
    ensures Takes(Closing(1, Waiting(0), 2, In(0), Waits(0, {0})), Release(0),
                  Closing(0, Waiting(0), 2, Released, Waits(0, {0})))
    ensures Takes(Closing(0, Waiting(0), 2, Released, Waits(0, {0})), Wake(0),
                  Closing(0, Over, 1, Released, Returned({0})))
  {
    assert map[0 := In(0)][0 := Released] == map[0 := Released];
    assert map[0 := Waits(0, {0})][0 := Returned({0})] == map[0 := Returned({0})];
    var bs := [Bucket(0, Waiting(0)), Bucket(2, Open)];
    assert [Bucket(1, Waiting(0)), Bucket(2, Open)][0 := Bucket(0, Waiting(0))] == bs;
    assert bs[0 := Bucket(0, Over)][1 := Bucket(1, Open)] == [Bucket(0, Over), Bucket(1, Open)];
  }

  lemma SyncReturns() returns (ss: seq<State>, steps: seq<Step>)
    ensures Run(ss, steps) && |steps| == 8 && steps[2] == Call(0)
    ensures 0 in ss[2].writes && ss[2].writes[0].In? && 0 in ss[8].calls && ss[8].calls[0].Returned?
  {
    Registering();
    Calling();
    ClosingOne();
    Returning();
    ss := [Bucket0(), WithWrite(1, Open, Got(0), map[], Nobody), WithWrite(2, Open, In(0), map[], Nobody),
           WithWrite(2, Open, In(0), map[0 := Called({0})], Nobody),
           WithWrite(2, Open, In(0), map[0 := Locked({0})], Holder(0)),
           Closing(2, Dropping(0), 2, In(0), Closed(0, {0})), Closing(1, Waiting(0), 2, In(0), Waits(0, {0})),
           Closing(0, Waiting(0), 2, Released, Waits(0, {0})), Closing(0, Over, 1, Released, Returned({0}))];
    steps := [ReadPointer(0), TryInc(0), Call(0), Check(0), Publish(0), Drop(0), Release(0), Wake(0)];
    forall i | 0 <= i < 8 ensures Takes(ss[i], steps[i], ss[i + 1]) {
    }
  }
}
