// Runs of DaxWindow: one in which a range is mapped, reclaimed inline, by the worker and by eviction, and one that ends
// with an iomap for a write on a range that is mapped read-only.
module DaxWitness {
  import opened DaxWindow
  import opened DaxSafety
  import opened DaxWritable

  // A window of one range, one inode, one thread
  function One(d: Dmap, n: Inode, f: Fcd, pc: Pc): State { State(map[0 := d], map[0 := n], f, map[0 := pc]) }

  // The tree of the inode when it is unlocked, with the range at index x
  function With0(x: nat): Inode { Inode(map[x := 0], 1, Nobody, Nobody, Nobody) }

  const EMPTY: Inode := Inode(map[], 0, Nobody, Nobody, Nobody)
  const ALL_FREE: Fcd := Fcd([0], 1, [], 0)
  const ALL_BUSY: Fcd := Fcd([], 0, [0], 1)
  const NONE: Fcd := Fcd([], 0, [], 0)
  const FRESH: Dmap := Dmap(Free, NoInode, 0, false, 1)

  // Reading the first page of index x
  function Reading(x: nat): Want { Want(0, x * FUSE_DAX_SZ, 4096, false, false) }

  // The range as the mapping of index x, with refs references
  function InUse(x: nat, refs: int): Dmap { Dmap(Tree(0, x, true), ToInode(0), x, false, refs) }

  lemma Single<V>(x: V, y: V)
    ensures map[0 := x][0 := y] == map[0 := y]
  {
  }

  lemma ReadIndex(x: nat)
    ensures Reading(x).Idx() == x && FillLen(Reading(x), x * FUSE_DAX_SZ + 4096) == 4096
  {
  }

  ghost predicate Takes(s: State, x: Step, s': State) { Can(s, x.t, x.a) && Next(s, x.t, x.a) == s' }

  // Thread 0 takes step a from s to s'.
  ghost predicate Goes(s: State, a: Action, s': State) { Takes(s, Step(0, a), s') }

  // The steps lead through the states.
  ghost predicate Leads(ss: seq<State>, steps: seq<Step>) {
    |ss| == |steps| + 1 && forall k | 0 <= k < |steps| :: Takes(ss[k], steps[k], ss[k + 1])
  }

  lemma Join(ss: seq<State>, steps: seq<Step>, ss': seq<State>, steps': seq<Step>)
    returns (all: seq<State>, both: seq<Step>)
    requires Leads(ss, steps) && Leads(ss', steps') && ss[|ss| - 1] == ss'[0]
    ensures Leads(all, both) && |both| == |steps| + |steps'| && all == ss[..|steps|] + ss' && both == steps + steps'
  {
    all, both := ss[..|steps|] + ss', steps + steps';
    forall k | 0 <= k < |both| ensures Takes(all[k], both[k], all[k + 1]) {
      if k >= |steps| {
        var j := k - |steps|;
        assert all[k] == ss'[j] && all[k + 1] == ss'[j + 1] && both[k] == steps'[j];
      } else {
        assert all[k] == ss[k] && all[k + 1] == ss[k + 1];
      }
    }
  }

  lemma OneStep(s: State, x: Step, s': State)
    requires Takes(s, x, s')
    ensures Leads([s, s'], [x])
  {
  }

  lemma LeadsRun(n: nat, ss: seq<State>, steps: seq<Step>)
    requires Leads(ss, steps) && Init(ss[0], n)
    ensures Run(n, ss, steps)
  {
    forall k | 0 <= k < |steps|
      ensures Can(ss[k], steps[k].t, steps[k].a) && ss[k + 1] == Next(ss[k], steps[k].t, steps[k].a)
    {
      assert Takes(ss[k], steps[k], ss[k + 1]);
    }
  }

  // ------------------------------------------------ mapping

  lemma BeginOne(d: Dmap, f: Fcd, x: nat, size: nat)
    requires size == x * FUSE_DAX_SZ + 4096
    ensures Goes(One(d, EMPTY, f, Idle), Begin(Reading(x), size), One(d, EMPTY, f, On(Reading(x), Seek)))
  {
    Single(Idle, On(Reading(x), Seek));
  }

  lemma TakeOne(x: nat)
    ensures Goes(One(FRESH, EMPTY, ALL_FREE, On(Reading(x), Seek)), TakeFree,
                 One(FRESH.(home := With(0, false)), EMPTY, NONE, On(Reading(x), Have(0))))
  {
    var w := Reading(x);
    Single(On(w, Seek), On(w, Have(0)));
    Single(FRESH, FRESH.(home := With(0, false)));
  }

  lemma SetUpOne(x: nat, size: nat)
    requires size == x * FUSE_DAX_SZ + 4096
    ensures Goes(One(FRESH.(home := With(0, false)), EMPTY, NONE, On(Reading(x), Have(0))), SetUp(size, true),
                 One(InUse(x, 1).(home := Tree(0, x, false)), With0(x).(sem := Thread(0)), NONE,
                     On(Reading(x), Inserted(0))))
  {
    var w, d := Reading(x), FRESH.(home := With(0, false));
    ReadIndex(x);
    Single(On(w, Have(0)), On(w, Inserted(0)));
    Single(d, InUse(x, 1).(home := Tree(0, x, false)));
    Single(EMPTY, With0(x).(sem := Thread(0)));
    assert map[][x := 0] == map[x := 0];
  }

  lemma PublishOne(x: nat, size: nat)
    requires size == x * FUSE_DAX_SZ + 4096
    ensures Goes(One(InUse(x, 1).(home := Tree(0, x, false)), With0(x).(sem := Thread(0)), NONE,
                     On(Reading(x), Inserted(0))),
                 Publish(size), One(InUse(x, 2), With0(x), ALL_BUSY, Mapped(Reading(x), 0, 4096)))
  {
    var w := Reading(x);
    ReadIndex(x);
    Single(On(w, Inserted(0)), Mapped(w, 0, 4096));
    Single(InUse(x, 1).(home := Tree(0, x, false)), InUse(x, 2));
    Single(With0(x).(sem := Thread(0)), With0(x));
    assert [] + [0] == [0];
  }

  lemma EndOne(x: nat)
    ensures Goes(One(InUse(x, 2), With0(x), ALL_BUSY, Mapped(Reading(x), 0, 4096)), End,
                 One(InUse(x, 1), With0(x), ALL_BUSY, Idle))
  {
    Single(Mapped(Reading(x), 0, 4096), Idle);
    Single(InUse(x, 2), InUse(x, 1));
  }

  // ------------------------------------------------ the worker

  lemma PickOne(x: nat)
    ensures Goes(One(InUse(x, 1), With0(x), ALL_BUSY, Idle), WorkPick(0),
                 One(InUse(x, 1), With0(x), ALL_BUSY, Work(0, x, Picked)))
  {
    Single(Idle, Work(0, x, Picked));
    assert Remove([0], 0) + [0] == [0];
  }

  lemma LockOne(x: nat)
    ensures Goes(One(InUse(x, 1), With0(x), ALL_BUSY, Work(0, x, Picked)), WorkLock,
                 One(InUse(x, 1), With0(x).(inval := Thread(0)), ALL_BUSY, Work(0, x, Locked)))
  {
    Single(Work(0, x, Picked), Work(0, x, Locked));
    Single(With0(x), With0(x).(inval := Thread(0)));
  }

  // The range is out of the tree, but still on busy_ranges.
  function Out(x: nat): Dmap { InUse(x, 1).(home := With(0, true)) }

  const OUT_LOCKED: Inode := EMPTY.(sem := Thread(0), inval := Thread(0))

  lemma TakeOutOne(x: nat)
    ensures Goes(One(InUse(x, 1), With0(x).(inval := Thread(0)), ALL_BUSY, Work(0, x, Locked)), WorkTake(true),
                 One(Out(x), OUT_LOCKED, ALL_BUSY, Work(0, x, Removed(0))))
  {
    Single(Work(0, x, Locked), Work(0, x, Removed(0)));
    Single(With0(x).(inval := Thread(0)), OUT_LOCKED);
    Single(InUse(x, 1), Out(x));
    assert map[x := 0] - {x} == map[];
  }

  lemma FreeOne(x: nat)
    ensures Goes(One(Out(x), OUT_LOCKED, ALL_BUSY, Work(0, x, Removed(0))), WorkFree, One(FRESH, EMPTY, ALL_FREE, Idle))
  {
    Single(Work(0, x, Removed(0)), Idle);
    Single(OUT_LOCKED, EMPTY);
    Single(Out(x), FRESH);
    assert Remove([0], 0) == [] && [] + [0] == [0];
  }

  // ------------------------------------------------ inline reclaim: index x gives way to index y

  lemma BeginOther(x: nat, y: nat, size: nat)
    requires x != y && size == y * FUSE_DAX_SZ + 4096
    ensures Goes(One(InUse(x, 1), With0(x), ALL_BUSY, Idle), Begin(Reading(y), size),
                 One(InUse(x, 1), With0(x), ALL_BUSY, On(Reading(y), Seek)))
  {
    ReadIndex(y);
    Single(Idle, On(Reading(y), Seek));
  }

  lemma NoneFree(x: nat, y: nat)
    ensures Goes(One(InUse(x, 1), With0(x), ALL_BUSY, On(Reading(y), Seek)), NoFree,
                 One(InUse(x, 1), With0(x), ALL_BUSY, On(Reading(y), Inline)))
  {
    Single(On(Reading(y), Seek), On(Reading(y), Inline));
  }

  lemma LockInline(x: nat, y: nat)
    ensures Goes(One(InUse(x, 1), With0(x), ALL_BUSY, On(Reading(y), Inline)), InlineLock,
                 One(InUse(x, 1), With0(x).(inval := Thread(0)), ALL_BUSY, On(Reading(y), InlineLocked)))
  {
    Single(On(Reading(y), Inline), On(Reading(y), InlineLocked));
    Single(With0(x), With0(x).(inval := Thread(0)));
  }

  lemma PickInline(x: nat, y: nat)
    ensures Goes(One(InUse(x, 1), With0(x).(inval := Thread(0)), ALL_BUSY, On(Reading(y), InlineLocked)), InlinePick(x),
                 One(InUse(x, 1), With0(x).(inval := Thread(0)), ALL_BUSY, On(Reading(y), InlinePicked(0, x))))
  {
    Single(On(Reading(y), InlineLocked), On(Reading(y), InlinePicked(0, x)));
  }

  lemma TakeInline(x: nat, y: nat)
    ensures Goes(One(InUse(x, 1), With0(x).(inval := Thread(0)), ALL_BUSY, On(Reading(y), InlinePicked(0, x))),
                 InlineTake(true),
                 One(Out(x), OUT_LOCKED, ALL_BUSY, On(Reading(y), InlineRemoved(0))))
  {
    Single(On(Reading(y), InlinePicked(0, x)), On(Reading(y), InlineRemoved(0)));
    Single(With0(x).(inval := Thread(0)), OUT_LOCKED);
    Single(InUse(x, 1), Out(x));
    assert map[x := 0] - {x} == map[];
  }

  lemma UnbusyInline(x: nat, y: nat)
    ensures Goes(One(Out(x), OUT_LOCKED, ALL_BUSY, On(Reading(y), InlineRemoved(0))), InlineUnbusy,
                 One(FRESH.(home := With(0, false)), EMPTY, NONE, On(Reading(y), Have(0))))
  {
    Single(On(Reading(y), InlineRemoved(0)), On(Reading(y), Have(0)));
    Single(OUT_LOCKED, EMPTY);
    Single(Out(x), FRESH.(home := With(0, false)));
    assert Remove([0], 0) == [];
  }

  // ------------------------------------------------ eviction

  function Evicted(x: nat): State { One(Out(x), EMPTY.(evictor := Thread(0)), ALL_BUSY, Evict(0, [0])) }

  lemma OneValue(x: nat)
    ensures |map[x := 0]| == 1 && forall r: Rid :: r in [0] <==> r in map[x := 0].Values
  {
    var m: map<nat, Rid> := map[x := 0];
    assert x in m.Keys && m[x] == 0 && m.Keys == {x};
    assert 0 in m.Values;
  }

  lemma EvictTreeOne(x: nat)
    ensures EvictTreeDo(One(InUse(x, 1), With0(x), ALL_BUSY, Idle), 0, 0, [0]) == Evicted(x)
  {
    Single(Idle, Evict(0, [0]));
    Single(With0(x), EMPTY.(evictor := Thread(0)));
    assert (map r | r in map[0 := InUse(x, 1)] :: if r in [0] then Out(x) else InUse(x, 1)) == map[0 := Out(x)];
  }

  lemma EvictOne(x: nat)
    ensures Goes(One(InUse(x, 1), With0(x), ALL_BUSY, Idle), EvictTree(0, [0]), Evicted(x))
  {
    OneValue(x);
    EvictTreeOne(x);
  }

  lemma FreeEvicted(x: nat)
    ensures Goes(Evicted(x), EvictFree, State(map[0 := FRESH], map[], ALL_FREE, map[0 := Idle]))
  {
    Single(Evict(0, [0]), Idle);
    assert EvictFreeDo(Evicted(x), 0, 0, [0]).dmaps == map[0 := FRESH];
    assert map[0 := EMPTY.(evictor := Thread(0))] - {0} == map[];
    assert RemoveAll([0], [0]) == [] && [] + [0] == [0];
  }

  // ------------------------------------------------ the run

  function Start(): State { State(map[0 := FRESH], map[], ALL_FREE, map[]) }

  function Created(): State { State(map[0 := FRESH], map[0 := EMPTY], ALL_FREE, map[]) }

  lemma FirstInode()
    ensures Init(Start(), 1) && Goes(Start(), NewInode(0), Created())
  {
    assert seq(1, k => k) == [0];
  }

  lemma BeginFirst()
    ensures Goes(Created(), Begin(Reading(0), 4096), One(FRESH, EMPTY, ALL_FREE, On(Reading(0), Seek)))
  {
    ReadIndex(0);
    assert map[][0 := On(Reading(0), Seek)] == map[0 := On(Reading(0), Seek)];
  }

  // Mapping index x, from a range of its own to the end of the iomap
  lemma MapIndex(x: nat) returns (ss: seq<State>, steps: seq<Step>)
    ensures Leads(ss, steps) && |steps| == 3
      && ss[0] == One(FRESH.(home := With(0, false)), EMPTY, NONE, On(Reading(x), Have(0)))
    ensures ss[2] == One(InUse(x, 2), With0(x), ALL_BUSY, Mapped(Reading(x), 0, 4096))
    ensures ss[3] == One(InUse(x, 1), With0(x), ALL_BUSY, Idle)
  {
    var size := x * FUSE_DAX_SZ + 4096;
    SetUpOne(x, size);
    PublishOne(x, size);
    EndOne(x);
    ss := [One(FRESH.(home := With(0, false)), EMPTY, NONE, On(Reading(x), Have(0))),
           One(InUse(x, 1).(home := Tree(0, x, false)), With0(x).(sem := Thread(0)), NONE, On(Reading(x), Inserted(0))),
           One(InUse(x, 2), With0(x), ALL_BUSY, Mapped(Reading(x), 0, 4096)),
           One(InUse(x, 1), With0(x), ALL_BUSY, Idle)];
    steps := [Step(0, SetUp(size, true)), Step(0, Publish(size)), Step(0, End)];
  }

  lemma First() returns (ss: seq<State>, steps: seq<Step>)
    ensures Leads(ss, steps) && |steps| == 3 && ss[0] == Start()
    ensures ss[3] == One(FRESH.(home := With(0, false)), EMPTY, NONE, On(Reading(0), Have(0)))
  {
    FirstInode();
    BeginFirst();
    TakeOne(0);
    ss := [Start(), Created(), One(FRESH, EMPTY, ALL_FREE, On(Reading(0), Seek)),
           One(FRESH.(home := With(0, false)), EMPTY, NONE, On(Reading(0), Have(0)))];
    steps := [Step(0, NewInode(0)), Step(0, Begin(Reading(0), 4096)), Step(0, TakeFree)];
  }

  lemma FindNone(x: nat, y: nat) returns (ss: seq<State>, steps: seq<Step>)
    requires x != y
    ensures Leads(ss, steps) && |steps| == 3 && ss[0] == One(InUse(x, 1), With0(x), ALL_BUSY, Idle)
    ensures ss[3] == One(InUse(x, 1), With0(x).(inval := Thread(0)), ALL_BUSY, On(Reading(y), InlineLocked))
  {
    var size := y * FUSE_DAX_SZ + 4096;
    BeginOther(x, y, size);
    NoneFree(x, y);
    LockInline(x, y);
    ss := [One(InUse(x, 1), With0(x), ALL_BUSY, Idle), One(InUse(x, 1), With0(x), ALL_BUSY, On(Reading(y), Seek)),
           One(InUse(x, 1), With0(x), ALL_BUSY, On(Reading(y), Inline)),
           One(InUse(x, 1), With0(x).(inval := Thread(0)), ALL_BUSY, On(Reading(y), InlineLocked))];
    steps := [Step(0, Begin(Reading(y), size)), Step(0, NoFree), Step(0, InlineLock)];
  }

  lemma ReclaimInline(x: nat, y: nat) returns (ss: seq<State>, steps: seq<Step>)
    requires x != y
    ensures Leads(ss, steps) && |steps| == 3
    ensures ss[0] == One(InUse(x, 1), With0(x).(inval := Thread(0)), ALL_BUSY, On(Reading(y), InlineLocked))
    ensures ss[3] == One(FRESH.(home := With(0, false)), EMPTY, NONE, On(Reading(y), Have(0)))
  {
    PickInline(x, y);
    TakeInline(x, y);
    UnbusyInline(x, y);
    ss := [One(InUse(x, 1), With0(x).(inval := Thread(0)), ALL_BUSY, On(Reading(y), InlineLocked)),
           One(InUse(x, 1), With0(x).(inval := Thread(0)), ALL_BUSY, On(Reading(y), InlinePicked(0, x))),
           One(Out(x), OUT_LOCKED, ALL_BUSY, On(Reading(y), InlineRemoved(0))),
           One(FRESH.(home := With(0, false)), EMPTY, NONE, On(Reading(y), Have(0)))];
    steps := [Step(0, InlinePick(x)), Step(0, InlineTake(true)), Step(0, InlineUnbusy)];
  }

  lemma ReclaimByWorker(x: nat) returns (ss: seq<State>, steps: seq<Step>)
    ensures Leads(ss, steps) && |steps| == 4 && ss[0] == One(InUse(x, 1), With0(x), ALL_BUSY, Idle)
    ensures ss[4] == One(FRESH, EMPTY, ALL_FREE, Idle)
  {
    PickOne(x);
    LockOne(x);
    TakeOutOne(x);
    FreeOne(x);
    ss := [One(InUse(x, 1), With0(x), ALL_BUSY, Idle), One(InUse(x, 1), With0(x), ALL_BUSY, Work(0, x, Picked)),
           One(InUse(x, 1), With0(x).(inval := Thread(0)), ALL_BUSY, Work(0, x, Locked)),
           One(Out(x), OUT_LOCKED, ALL_BUSY, Work(0, x, Removed(0))), One(FRESH, EMPTY, ALL_FREE, Idle)];
    steps := [Step(0, WorkPick(0)), Step(0, WorkLock), Step(0, WorkTake(true)), Step(0, WorkFree)];
  }

  lemma MapAgain(x: nat) returns (ss: seq<State>, steps: seq<Step>)
    ensures Leads(ss, steps) && |steps| == 2 && ss[0] == One(FRESH, EMPTY, ALL_FREE, Idle)
    ensures ss[2] == One(FRESH.(home := With(0, false)), EMPTY, NONE, On(Reading(x), Have(0)))
  {
    var size := x * FUSE_DAX_SZ + 4096;
    BeginOne(FRESH, ALL_FREE, x, size);
    TakeOne(x);
    ss := [One(FRESH, EMPTY, ALL_FREE, Idle), One(FRESH, EMPTY, ALL_FREE, On(Reading(x), Seek)),
           One(FRESH.(home := With(0, false)), EMPTY, NONE, On(Reading(x), Have(0)))];
    steps := [Step(0, Begin(Reading(x), size)), Step(0, TakeFree)];
  }

  lemma EvictInode(x: nat) returns (ss: seq<State>, steps: seq<Step>)
    ensures Leads(ss, steps) && |steps| == 2 && ss[0] == One(InUse(x, 1), With0(x), ALL_BUSY, Idle)
    ensures ss[2] == State(map[0 := FRESH], map[], ALL_FREE, map[0 := Idle])
  {
    EvictOne(x);
    FreeEvicted(x);
    ss := [One(InUse(x, 1), With0(x), ALL_BUSY, Idle), Evicted(x),
           State(map[0 := FRESH], map[], ALL_FREE, map[0 := Idle])];
    steps := [Step(0, EvictTree(0, [0])), Step(0, EvictFree)];
  }

  lemma MappedFirst() returns (ss: seq<State>, steps: seq<Step>)
    ensures Leads(ss, steps) && |steps| == 6 && ss[0] == Start() && ss[6] == One(InUse(0, 1), With0(0), ALL_BUSY, Idle)
    ensures At(ss[5].threads, 0) == Mapped(Reading(0), 0, 4096)
  {
    var s1, a1 := First();
    var s2, a2 := MapIndex(0);
    ss, steps := Join(s1, a1, s2, a2);
  }

  lemma MappedInline() returns (ss: seq<State>, steps: seq<Step>)
    ensures Leads(ss, steps) && |steps| == 9 && ss[0] == One(InUse(0, 1), With0(0), ALL_BUSY, Idle)
    ensures ss[9] == One(InUse(1, 1), With0(1), ALL_BUSY, Idle) && At(ss[8].threads, 0) == Mapped(Reading(1), 0, 4096)
  {
    var s1, a1 := FindNone(0, 1);
    var s2, a2 := ReclaimInline(0, 1);
    var s3, a3 := MapIndex(1);
    ss, steps := Join(s1, a1, s2, a2);
    ss, steps := Join(ss, steps, s3, a3);
  }

  lemma FreedMappedEvicted() returns (ss: seq<State>, steps: seq<Step>)
    ensures Leads(ss, steps) && |steps| == 11 && ss[0] == One(InUse(1, 1), With0(1), ALL_BUSY, Idle)
    ensures ss[4].fcd == ALL_FREE && At(ss[8].threads, 0) == Mapped(Reading(0), 0, 4096)
    ensures ss[11] == State(map[0 := FRESH], map[], ALL_FREE, map[0 := Idle])
  {
    var s1, a1 := ReclaimByWorker(1);
    var s2, a2 := MapAgain(0);
    var s3, a3 := MapIndex(0);
    var s4, a4 := EvictInode(0);
    ss, steps := Join(s1, a1, s2, a2);
    ss, steps := Join(ss, steps, s3, a3);
    ss, steps := Join(ss, steps, s4, a4);
  }

  // An inode is created and its first index mapped; the range is reclaimed inline for another index, then by the
  // worker, is mapped once more, and is freed when the inode is evicted.
  lemma WholeLife() returns (ss: seq<State>, steps: seq<Step>)
    ensures Run(1, ss, steps) && |steps| == 26
    ensures At(ss[5].threads, 0) == Mapped(Reading(0), 0, 4096) && At(ss[14].threads, 0) == Mapped(Reading(1), 0, 4096)
    ensures ss[19].fcd == ALL_FREE && At(ss[23].threads, 0) == Mapped(Reading(0), 0, 4096)
    ensures ss[26].inodes == map[] && ss[26].fcd == ALL_FREE
  {
    var s1, a1 := MappedFirst();
    var s2, a2 := MappedInline();
    var s3, a3 := FreedMappedEvicted();
    ss, steps := Join(s1, a1, s2, a2);
    ss, steps := Join(ss, steps, s3, a3);
    FirstInode();
    LeadsRun(1, ss, steps);
  }

  // ------------------------------------------------ a write on a read-only range

  // A window of two ranges, one inode, and threads 1 and 2
  function Two(d0: Dmap, d1: Dmap, n: Inode, f: Fcd, ths: map<Tid, Pc>): State {
    State(map[0 := d0, 1 := d1], map[0 := n], f, ths)
  }

  const READS: Want := Want(0, 0, 4096, false, false)
  const WRITES: Want := Want(0, 0, 4096, true, false)
  const TAKEN1: Dmap := Dmap(With(1, false), NoInode, 0, false, 1)
  const TAKEN2: Dmap := Dmap(With(2, false), NoInode, 0, false, 1)

  function Ths(pc1: Pc, pc2: Pc): map<Tid, Pc> { map[1 := pc1, 2 := pc2] }

  lemma SetTh1(pc1: Pc, pc2: Pc, pc: Pc)
    ensures Ths(pc1, pc2)[1 := pc] == Ths(pc, pc2)
  {
  }

  lemma SetTh2(pc1: Pc, pc2: Pc, pc: Pc)
    ensures Ths(pc1, pc2)[2 := pc] == Ths(pc1, pc)
  {
  }

  lemma SetD<V>(d0: V, d1: V, d: V)
    ensures map[0 := d0, 1 := d1][0 := d] == map[0 := d, 1 := d1]
      && map[0 := d0, 1 := d1][1 := d] == map[0 := d0, 1 := d]
  {
  }

  lemma FillsPage(w: Want)
    requires w == READS || w == WRITES
    ensures w.Idx() == 0 && FillLen(w, 4096) == 4096
  {
  }

  const FREE2: Fcd := Fcd([0, 1], 2, [], 0)

  function StartTwo(): State { State(map[0 := FRESH, 1 := FRESH], map[], FREE2, map[]) }

  lemma CreateTwo()
    ensures Init(StartTwo(), 2) && Takes(StartTwo(), Step(1, NewInode(0)), Two(FRESH, FRESH, EMPTY, FREE2, map[]))
  {
    assert seq(2, k => k) == [0, 1];
  }

  lemma ReaderSeeks()
    ensures Takes(Two(FRESH, FRESH, EMPTY, FREE2, map[]), Step(1, Begin(READS, 4096)),
                  Two(FRESH, FRESH, EMPTY, FREE2, map[1 := On(READS, Seek)]))
  {
    FillsPage(READS);
    assert map[][1 := On(READS, Seek)] == map[1 := On(READS, Seek)];
  }

  lemma WriterSeeks()
    ensures Takes(Two(FRESH, FRESH, EMPTY, FREE2, map[1 := On(READS, Seek)]), Step(2, Begin(WRITES, 4096)),
                  Two(FRESH, FRESH, EMPTY, FREE2, Ths(On(READS, Seek), On(WRITES, Seek))))
  {
    FillsPage(WRITES);
    assert map[1 := On(READS, Seek)][2 := On(WRITES, Seek)] == Ths(On(READS, Seek), On(WRITES, Seek));
  }

  // Both threads find no mapping.
  lemma BothSeek() returns (ss: seq<State>, steps: seq<Step>)
    ensures Leads(ss, steps) && |steps| == 3 && Init(ss[0], 2)
    ensures ss[3] == Two(FRESH, FRESH, EMPTY, FREE2, Ths(On(READS, Seek), On(WRITES, Seek)))
  {
    var s1, s2 := Two(FRESH, FRESH, EMPTY, FREE2, map[]), Two(FRESH, FRESH, EMPTY, FREE2, map[1 := On(READS, Seek)]);
    var s3 := Two(FRESH, FRESH, EMPTY, FREE2, Ths(On(READS, Seek), On(WRITES, Seek)));
    CreateTwo();
    ReaderSeeks();
    WriterSeeks();
    OneStep(StartTwo(), Step(1, NewInode(0)), s1);
    OneStep(s1, Step(1, Begin(READS, 4096)), s2);
    OneStep(s2, Step(2, Begin(WRITES, 4096)), s3);
    ss, steps := Join([StartTwo(), s1], [Step(1, NewInode(0))], [s1, s2], [Step(1, Begin(READS, 4096))]);
    ss, steps := Join(ss, steps, [s2, s3], [Step(2, Begin(WRITES, 4096))]);
  }

  // Both take a range.
  lemma BothTake() returns (ss: seq<State>, steps: seq<Step>)
    ensures Leads(ss, steps) && |steps| == 2
    ensures ss[0] == Two(FRESH, FRESH, EMPTY, FREE2, Ths(On(READS, Seek), On(WRITES, Seek)))
    ensures ss[2] == BothHave()
  {
    SetTh1(On(READS, Seek), On(WRITES, Seek), On(READS, Have(0)));
    SetTh2(On(READS, Have(0)), On(WRITES, Seek), On(WRITES, Have(1)));
    SetD(FRESH, FRESH, TAKEN1);
    SetD(TAKEN1, FRESH, TAKEN2);
    ss := [Two(FRESH, FRESH, EMPTY, FREE2, Ths(On(READS, Seek), On(WRITES, Seek))),
           Two(TAKEN1, FRESH, EMPTY, Fcd([1], 1, [], 0), Ths(On(READS, Have(0)), On(WRITES, Seek))),
           BothHave()];
    steps := [Step(1, TakeFree), Step(2, TakeFree)];
  }

  function BothHave(): State { Two(TAKEN1, TAKEN2, EMPTY, NONE, Ths(On(READS, Have(0)), On(WRITES, Have(1)))) }

  function ReaderInserted(): State {
    Two(InUse(0, 1).(home := Tree(0, 0, false)), TAKEN2, With0(0).(sem := Thread(1)), NONE,
        Ths(On(READS, Inserted(0)), On(WRITES, Have(1))))
  }

  function ReaderMapped(): State {
    Two(InUse(0, 2), TAKEN2, With0(0), ALL_BUSY, Ths(Mapped(READS, 0, 4096), On(WRITES, Have(1))))
  }

  function WriterGives(): State {
    Two(InUse(0, 3), TAKEN2, With0(0).(sem := Thread(2)), ALL_BUSY,
        Ths(Mapped(READS, 0, 4096), On(WRITES, GiveBack(1, Filled(0, 4096)))))
  }

  function BothMapped(): State {
    Two(InUse(0, 3), FRESH, With0(0), Fcd([1], 1, [0], 1), Ths(Mapped(READS, 0, 4096), Mapped(WRITES, 0, 4096)))
  }

  // The reader maps its range read-only.
  lemma ReaderSetsUp()
    ensures Takes(BothHave(), Step(1, SetUp(4096, true)), ReaderInserted())
  {
    FillsPage(READS);
    SetTh1(On(READS, Have(0)), On(WRITES, Have(1)), On(READS, Inserted(0)));
    SetD(TAKEN1, TAKEN2, InUse(0, 1).(home := Tree(0, 0, false)));
    Single(EMPTY, With0(0).(sem := Thread(1)));
    assert map[][0 := 0] == map[0 := 0];
  }

  lemma ReaderPublishes()
    ensures Takes(ReaderInserted(), Step(1, Publish(4096)), ReaderMapped())
  {
    FillsPage(READS);
    SetTh1(On(READS, Inserted(0)), On(WRITES, Have(1)), Mapped(READS, 0, 4096));
    SetD(InUse(0, 1).(home := Tree(0, 0, false)), TAKEN2, InUse(0, 2));
    Single(With0(0).(sem := Thread(1)), With0(0));
    assert [] + [0] == [0];
  }

  // The writer finds it, and gives its own range back.
  lemma WriterHits()
    ensures Takes(ReaderMapped(), Step(2, SetUp(4096, true)), WriterGives())
      && HitsReadOnly(ReaderMapped(), 2, SetUp(4096, true))
  {
    FillsPage(WRITES);
    SetTh2(Mapped(READS, 0, 4096), On(WRITES, Have(1)), On(WRITES, GiveBack(1, Filled(0, 4096))));
    SetD(InUse(0, 2), TAKEN2, InUse(0, 3));
    Single(With0(0), With0(0).(sem := Thread(2)));
  }

  lemma WriterReturns()
    ensures Takes(WriterGives(), Step(2, Return), BothMapped())
  {
    SetTh2(Mapped(READS, 0, 4096), On(WRITES, GiveBack(1, Filled(0, 4096))), Mapped(WRITES, 0, 4096));
    SetD(InUse(0, 3), TAKEN2, FRESH);
    Single(With0(0).(sem := Thread(2)), With0(0));
    assert [] + [1] == [1];
  }

  lemma ReaderThenWriter() returns (ss: seq<State>, steps: seq<Step>)
    ensures Leads(ss, steps) && |steps| == 4 && ss[0] == BothHave() && ss[4] == BothMapped()
    ensures ss[2] == ReaderMapped() && steps[2] == Step(2, SetUp(4096, true))
  {
    ReaderSetsUp();
    ReaderPublishes();
    WriterHits();
    WriterReturns();
    OneStep(BothHave(), Step(1, SetUp(4096, true)), ReaderInserted());
    OneStep(ReaderInserted(), Step(1, Publish(4096)), ReaderMapped());
    OneStep(ReaderMapped(), Step(2, SetUp(4096, true)), WriterGives());
    OneStep(WriterGives(), Step(2, Return), BothMapped());
    ss, steps := Join([BothHave(), ReaderInserted()], [Step(1, SetUp(4096, true))],
                      [ReaderInserted(), ReaderMapped()], [Step(1, Publish(4096))]);
    ss, steps := Join(ss, steps, [ReaderMapped(), WriterGives()], [Step(2, SetUp(4096, true))]);
    ss, steps := Join(ss, steps, [WriterGives(), BothMapped()], [Step(2, Return)]);
  }

  // A reader and a writer of the same index meet: the writer ends with an iomap on the range that is mapped read-only.
  lemma WriteOnReadOnly() returns (ss: seq<State>, steps: seq<Step>)
    ensures Run(2, ss, steps) && |steps| == 9 && HitsReadOnly(ss[7], 2, steps[7].a)
    ensures At(ss[9].threads, 2) == Mapped(WRITES, 0, 4096) && WRITES.write && 0 in ss[9].dmaps
      && !ss[9].dmaps[0].writable
  {
    var s1, x1 := BothSeek();
    var s2, x2 := BothTake();
    var s3, x3 := ReaderThenWriter();
    ss, steps := Join(s1, x1, s2, x2);
    ss, steps := Join(ss, steps, s3, x3);
    LeadsRun(2, ss, steps);
    WriterHits();
  }
}
