// Every step of DaxWindow keeps the invariant.
module DaxSteps {
  import opened Basics
  import opened Counting
  import opened DaxWindow
  import opened DaxInvariant

  // ------------------------------------------------ lists without repetition

  lemma {:induction false} RemoveDistinct(s: seq<Rid>, r: Rid)
    requires Distinct(s)
    ensures Distinct(Remove(s, r)) && forall x :: x in Remove(s, r) <==> x in s && x != r
    ensures |Remove(s, r)| == |s| - B(r in s)
  {
    if s != [] {
      assert s == [s[0]] + s[1..];
      if s[0] == r {
        assert forall i | 0 < i < |s| :: s[i] != r;
      } else {
        RemoveDistinct(s[1..], r);
        assert s[0] !in s[1..];
        assert s[0] !in Remove(s[1..], r);
      }
    }
  }

  lemma {:induction false} RemoveAllDistinct(s: seq<Rid>, rs: seq<Rid>)
    requires Distinct(s) && Distinct(rs) && forall r | r in rs :: r in s
    ensures Distinct(RemoveAll(s, rs)) && forall x :: x in RemoveAll(s, rs) <==> x in s && x !in rs
    ensures |RemoveAll(s, rs)| == |s| - |rs|
    decreases |rs|
  {
    if rs != [] {
      RemoveDistinct(s, rs[0]);
      assert forall i | 0 < i < |rs| :: rs[i] != rs[0];
      assert rs == [rs[0]] + rs[1..];
      RemoveAllDistinct(Remove(s, rs[0]), rs[1..]);
    }
  }

  lemma Append(s: seq<Rid>, r: Rid)
    requires Distinct(s) && r !in s
    ensures Distinct(s + [r]) && forall x :: x in s + [r] <==> x in s || x == r
  {
  }

  lemma AppendAll(s: seq<Rid>, rs: seq<Rid>)
    requires Distinct(s) && Distinct(rs) && forall r | r in rs :: r !in s
    ensures Distinct(s + rs) && forall x :: x in s + rs <==> x in s || x in rs
  {
    var u := s + rs;
    forall i, j | 0 <= i < j < |u| ensures u[i] != u[j] {
      if i < |s| <= j {
        assert u[j] == rs[j - |s|] && u[j] in rs;
      }
    }
  }

  lemma Front(s: seq<Rid>)
    requires Distinct(s) && s != []
    ensures Distinct(s[1..]) && forall x :: x in s[1..] <==> x in s && x != s[0]
  {
    assert s == [s[0]] + s[1..];
  }

  lemma TreeInsert(m: map<nat, Rid>, x: nat, r: Rid)
    ensures |m[x := r]| == |m| + B(x !in m)
  {
    assert m[x := r].Keys == m.Keys + {x};
    assert |m[x := r].Keys| == |m.Keys| + B(x !in m);
  }

  lemma TreeRemove(m: map<nat, Rid>, x: nat)
    requires x in m
    ensures |m - {x}| == |m| - 1
  {
    assert (m - {x}).Keys == m.Keys - {x};
    Drop(m.Keys, x);
  }

  // ------------------------------------------------ fuse_fill_iomap

  lemma AlignUp(n: nat)
    ensures n <= Align(n) && (forall k: nat | n <= k * PAGE_SIZE :: Align(n) <= k * PAGE_SIZE)
  {
    forall k: nat | n <= k * PAGE_SIZE ensures Align(n) <= k * PAGE_SIZE {
      assert (n + PAGE_SIZE - 1) / PAGE_SIZE <= k;
    }
  }

  // The iomap stays within the range, also when a fault rounds it up to whole pages.
  lemma FillFits(w: Want, size: nat)
    requires WantOk(w)
    ensures LenOk(w, FillLen(w, size))
  {
    var room := FUSE_DAX_SZ - w.pos % FUSE_DAX_SZ;
    if w.fault {
      assert w.pos % FUSE_DAX_SZ % PAGE_SIZE == 0 by {
        assert w.pos == w.pos / FUSE_DAX_SZ * 512 * PAGE_SIZE + w.pos % FUSE_DAX_SZ;
      }
      assert room == (room / PAGE_SIZE) * PAGE_SIZE;
      var len := Min(w.len, room);
      var cut := if w.pos + len > size then size - w.pos else len;
      if cut > 0 {
        AlignUp(cut);
      }
    }
  }

  // ------------------------------------------------ what the invariant says about one of each

  lemma GetThread(s: State, t: Tid)
    requires Inv(s)
    ensures ThreadInv(t, At(s.threads, t), s)
  {
  }

  lemma GetRange(s: State, r: Rid)
    requires Inv(s) && r in s.dmaps
    ensures RangeInv(r, s.dmaps[r], s)
  {
  }

  lemma GetInode(s: State, i: Ino)
    requires Inv(s) && i in s.inodes
    ensures InodeInv(i, s.inodes[i], s.dmaps, s.threads)
  {
  }

  // An unused range has no active iomap.
  lemma NoUsers(ths: map<Tid, Pc>, r: Rid, d: Dmap)
    requires RefOk(r, d, ths) && Idleable(d)
    ensures Users(ths, r) == {}
  {
  }

  // ------------------------------------------------ fuse_iomap_begin and fuse_iomap_end

  // The thread's step touches no range.
  lemma NoRangeFrame(s: State, s': State, t: Tid, i: Ino)
    requires Inv(s) && s'.dmaps == s.dmaps && s'.fcd == s.fcd
    requires forall r :: InodeStep(s, s', t, r, i) && ThreadStep(s, s', t, r, i)
    requires ThreadInv(t, s'.threads[t], s') && InodeInv(i, s'.inodes[i], s'.dmaps, s'.threads)
    ensures Inv(s')
  {
    forall q | q in s.dmaps ensures RangeInv(q, s'.dmaps[q], s') {
      OtherRange(s, s', t, q + 1, i, q);
    }
    StepFrame(s, s', t, 0, i);
  }

  // t moves from pc to pc' with the ranges and references it has.
  ghost predicate SameHold(pc: Pc, pc': Pc, i: Ino) {
    && !pc.Evict? && !pc'.Evict? && !HeldBusy(pc) && !HeldBusy(pc')
    && (forall q :: HoldsRange(pc', q) == HoldsRange(pc, q)) && (forall q :: Uses(pc', q) == Uses(pc, q))
    && !(pc.On? && pc.st.Inserted?) && !(pc'.On? && pc'.st.Inserted?)
    && (forall j | OnInode(pc, j) || OnInode(pc', j) :: j == i)
  }

  // Only the program counter of t and invalidate_lock of i change.
  ghost predicate Relocked(s: State, s': State, t: Tid, i: Ino) {
    && i in s.inodes && i in s'.inodes && t in s'.threads
    && s'.dmaps == s.dmaps && s'.fcd == s.fcd && s'.threads == s.threads[t := s'.threads[t]]
    && s'.inodes == s.inodes[i := s.inodes[i].(inval := s'.inodes[i].inval)]
    && var pc, pc', l, l' := At(s.threads, t), s'.threads[t], s.inodes[i].inval, s'.inodes[i].inval;
      && SameHold(pc, pc', i) && !HoldsSem(pc, i) && !HoldsSem(pc', i)
      && (if HoldsInval(pc', i) then l'.Is(t) && (l.Nobody? || HoldsInval(pc, i))
          else if HoldsInval(pc, i) then l'.Nobody?
          else l' == l)
  }

  lemma RelockedSteps(s: State, s': State, t: Tid, i: Ino, r: Rid)
    requires Relocked(s, s', t, i) && s.inodes[i].evictor.Nobody?
    requires HoldsInval(At(s.threads, t), i) ==> s.inodes[i].inval.Is(t)
    ensures InodeStep(s, s', t, r, i) && ThreadStep(s, s', t, r, i)
  {
  }

  lemma RelockedInode(s: State, s': State, t: Tid, i: Ino)
    requires Relocked(s, s', t, i) && InodeInv(i, s.inodes[i], s.dmaps, s.threads)
    ensures InodeInv(i, s'.inodes[i], s'.dmaps, s'.threads)
  {
  }

  lemma RelockedKeeps(s: State, s': State, t: Tid, i: Ino)
    requires Inv(s) && Relocked(s, s', t, i) && s.inodes[i].evictor.Nobody? && ThreadInv(t, s'.threads[t], s')
    ensures Inv(s')
  {
    GetThread(s, t);
    GetInode(s, i);
    forall r ensures InodeStep(s, s', t, r, i) && ThreadStep(s, s', t, r, i) {
      RelockedSteps(s, s', t, i, r);
    }
    RelockedInode(s, s', t, i);
    NoRangeFrame(s, s', t, i);
  }

  // A thread with an inode finds it there and not being evicted.
  lemma OnLive(s: State, t: Tid, i: Ino)
    requires Inv(s) && OnInode(At(s.threads, t), i) && !At(s.threads, t).Evict?
    ensures i in s.inodes && s.inodes[i].evictor.Nobody?
  {
    GetThread(s, t);
  }

  // What a step of t on inode i may rely on
  ghost predicate Ready(s: State, t: Tid, pc: Pc, i: Ino) {
    && At(s.threads, t) == pc && ThreadInv(t, pc, s)
    && i in s.inodes && s.inodes[i].evictor.Nobody? && InodeInv(i, s.inodes[i], s.dmaps, s.threads)
  }

  lemma GetReady(s: State, t: Tid, i: Ino)
    requires Inv(s) && OnInode(At(s.threads, t), i) && !At(s.threads, t).Evict?
    ensures Ready(s, t, At(s.threads, t), i)
  {
    GetThread(s, t);
    OnLive(s, t, i);
    GetInode(s, i);
  }

  // ---- steps that only move locks

  predicate MovesLocks(a: Action) {
    a.NoFree? || a.Killed? || a.InlineLock? || a.InlineNone? || a.BreakFailed? || a.InlinePick?
  }

  lemma StageSameHold(s: State, t: Tid, w: Want, st: Stage, a: Action)
    requires StageCan(s, w, st, a) && MovesLocks(a)
    ensures SameHold(On(w, st), StageDo(s, t, w, st, a).threads[t], w.i)
  {
  }

  lemma StageRelocks(s: State, t: Tid, w: Want, st: Stage, a: Action)
    requires Ready(s, t, On(w, st), w.i) && StageCan(s, w, st, a) && MovesLocks(a)
    ensures Relocked(s, StageDo(s, t, w, st, a), t, w.i)
  {
    StageSameHold(s, t, w, st, a);
  }

  lemma StageRelockThread(s: State, t: Tid, w: Want, st: Stage, a: Action)
    requires Ready(s, t, On(w, st), w.i) && StageCan(s, w, st, a) && MovesLocks(a)
    ensures var s' := StageDo(s, t, w, st, a); ThreadInv(t, s'.threads[t], s')
  {
    var s' := StageDo(s, t, w, st, a);
    var pc' := s'.threads[t];
    assert OwnsOk(t, pc', s'.dmaps) by {
      assert forall r :: !HoldsRange(pc', r) && !Uses(pc', r);
    }
    assert WantsOk(pc');
    assert OnOk(t, pc', s'.inodes) by {
      assert forall i :: !HoldsSem(pc', i);
    }
  }

  lemma StageLocks(s: State, t: Tid, w: Want, st: Stage, a: Action)
    requires Inv(s) && At(s.threads, t) == On(w, st) && StageCan(s, w, st, a) && MovesLocks(a)
    ensures Inv(StageDo(s, t, w, st, a))
  {
    GetReady(s, t, w.i);
    StageRelocks(s, t, w, st, a);
    StageRelockThread(s, t, w, st, a);
    RelockedKeeps(s, StageDo(s, t, w, st, a), t, w.i);
  }

  lemma WorkRelocks(s: State, t: Tid, i: Ino, x: nat, ws: WorkStage, a: Action)
    requires Ready(s, t, Work(i, x, ws), i) && WorkCan(s, i, ws, a) && (a.WorkLock? || a.BreakFailed?)
    ensures var s' := WorkDo(s, t, i, x, ws, a); Relocked(s, s', t, i) && ThreadInv(t, s'.threads[t], s')
  {
  }

  lemma WorkLocks(s: State, t: Tid, i: Ino, x: nat, ws: WorkStage, a: Action)
    requires Inv(s) && At(s.threads, t) == Work(i, x, ws) && WorkCan(s, i, ws, a) && (a.WorkLock? || a.BreakFailed?)
    ensures Inv(WorkDo(s, t, i, x, ws, a))
  {
    GetReady(s, t, i);
    WorkRelocks(s, t, i, x, ws, a);
    RelockedKeeps(s, WorkDo(s, t, i, x, ws, a), t, i);
  }

  // ------------------------------------------------ steps that only count references

  // t starts or stops using r; nothing else changes but that r may become writable.
  ghost predicate Referred(s: State, s': State, t: Tid, r: Rid, i: Ino) {
    && i in s.inodes && r in s.dmaps && r in s'.dmaps && t in s'.threads
    && s'.inodes == s.inodes && s'.fcd == s.fcd && s'.threads == s.threads[t := s'.threads[t]]
    && s'.dmaps == s.dmaps[r := s'.dmaps[r]]
    && var pc, pc', d, d' := At(s.threads, t), s'.threads[t], s.dmaps[r], s'.dmaps[r];
      && d'.home == d.home && d'.link == d.link && d'.start == d.start
      && d'.refcnt == d.refcnt + B(Uses(pc', r)) - B(Uses(pc, r))
      && Plain(pc, r) && Plain(pc', r) && (forall j | OnInode(pc, j) :: j == i)
  }

  // A program counter with no range to itself, no lock, and no reference but to r
  ghost predicate Plain(pc: Pc, r: Rid) {
    (pc.Idle? || pc.Mapped? || (pc.On? && (pc.st.Upgrade? || pc.st.Seek?))) && forall q | Uses(pc, q) :: q == r
  }

  lemma ReferredSteps(s: State, s': State, t: Tid, r: Rid, i: Ino)
    requires Referred(s, s', t, r, i) && s.inodes[i].evictor.Nobody?
    ensures InodeStep(s, s', t, r, i) && RangeStep(s, s', t, r, i) && ThreadStep(s, s', t, r, i)
  {
  }

  lemma ReferredRange(s: State, s': State, t: Tid, r: Rid, i: Ino)
    requires Referred(s, s', t, r, i) && RangeInv(r, s.dmaps[r], s)
    ensures RangeInv(r, s'.dmaps[r], s')
  {
    UsersStep(s.threads, t, s'.threads[t], r);
  }

  lemma ReferredInode(s: State, s': State, t: Tid, r: Rid, i: Ino)
    requires Referred(s, s', t, r, i) && InodeInv(i, s.inodes[i], s.dmaps, s.threads)
    ensures InodeInv(i, s'.inodes[i], s'.dmaps, s'.threads)
  {
  }

  lemma ReferredKeeps(s: State, s': State, t: Tid, r: Rid, i: Ino)
    requires Inv(s) && Referred(s, s', t, r, i) && s.inodes[i].evictor.Nobody? && ThreadInv(t, s'.threads[t], s')
    ensures Inv(s')
  {
    GetRange(s, r);
    GetInode(s, i);
    ReferredSteps(s, s', t, r, i);
    ReferredRange(s, s', t, r, i);
    ReferredInode(s, s', t, r, i);
    StepFrame(s, s', t, r, i);
  }

  // An upgrade gives up the extra reference and takes one for the iomap.
  lemma UpgradeRefers(s: State, t: Tid, w: Want, r: Rid, size: nat, ok: bool)
    requires Ready(s, t, On(w, Upgrade(r)), w.i) && r in s.dmaps && RangeInv(r, s.dmaps[r], s)
    ensures var s' := UpgradeDo(s, t, w, size, ok); Referred(s, s', t, r, w.i) && ThreadInv(t, s'.threads[t], s')
  {
    assert Uses(On(w, Upgrade(r)), r);
    FillFits(w, size);
  }

  // The range that fuse_upgrade_dax_mapping finds is the one it holds the extra reference to.
  lemma UpgradeFinds(s: State, t: Tid, w: Want, r: Rid)
    requires Inv(s) && At(s.threads, t) == On(w, Upgrade(r))
    ensures w.i in s.inodes && w.Idx() in s.inodes[w.i].tree && s.inodes[w.i].tree[w.Idx()] == r && r in s.dmaps
  {
    GetThread(s, t);
    assert Uses(On(w, Upgrade(r)), r);
    GetRange(s, r);
  }

  lemma UpgradeKeeps(s: State, t: Tid, w: Want, r: Rid, size: nat, ok: bool)
    requires Inv(s) && At(s.threads, t) == On(w, Upgrade(r)) && w.i in s.inodes
    ensures Inv(UpgradeDo(s, t, w, size, ok))
  {
    UpgradeFinds(s, t, w, r);
    GetReady(s, t, w.i);
    GetRange(s, r);
    UpgradeRefers(s, t, w, r, size, ok);
    ReferredKeeps(s, UpgradeDo(s, t, w, size, ok), t, r, w.i);
  }

  // fuse_iomap_end
  function EndDo(s: State, t: Tid, r: Rid): State
    requires r in s.dmaps
  {
    SetPc(SetDmap(s, r, s.dmaps[r].(refcnt := s.dmaps[r].refcnt - 1)), t, Idle)
  }

  lemma EndRefers(s: State, t: Tid, m: Want, r: Rid, len: nat)
    requires Ready(s, t, Mapped(m, r, len), m.i) && r in s.dmaps
    ensures var s' := EndDo(s, t, r); Referred(s, s', t, r, m.i) && ThreadInv(t, s'.threads[t], s')
  {
  }

  lemma EndKeeps(s: State, t: Tid, m: Want, r: Rid, len: nat)
    requires Inv(s) && At(s.threads, t) == Mapped(m, r, len) && r in s.dmaps
    ensures Inv(EndDo(s, t, r))
  {
    GetReady(s, t, m.i);
    EndRefers(s, t, m, r, len);
    ReferredKeeps(s, EndDo(s, t, r), t, r, m.i);
  }

  // An idle thread may use inode i.
  ghost predicate IdleReady(s: State, t: Tid, i: Ino) {
    At(s.threads, t).Idle? && i in s.inodes && s.inodes[i].evictor.Nobody?
      && InodeInv(i, s.inodes[i], s.dmaps, s.threads)
  }

  lemma BeginHits(s: State, t: Tid, w: Want, size: nat)
    requires IdleReady(s, t, w.i) && w.Idx() in s.inodes[w.i].tree && WantOk(w)
    ensures var r, s' := s.inodes[w.i].tree[w.Idx()], BeginDo(s, t, w, size);
            Referred(s, s', t, r, w.i) && ThreadInv(t, s'.threads[t], s')
  {
    FillFits(w, size);
  }

  lemma BeginMisses(s: State, t: Tid, w: Want, size: nat)
    requires IdleReady(s, t, w.i) && w.Idx() !in s.inodes[w.i].tree && WantOk(w)
    ensures var s' := BeginDo(s, t, w, size); Relocked(s, s', t, w.i) && ThreadInv(t, s'.threads[t], s')
  {
  }

  lemma BeginKeeps(s: State, t: Tid, w: Want, size: nat)
    requires Inv(s) && At(s.threads, t).Idle? && IdleCan(s, Begin(w, size))
    ensures Inv(BeginDo(s, t, w, size))
  {
    GetInode(s, w.i);
    if w.Idx() in s.inodes[w.i].tree {
      BeginHits(s, t, w, size);
      ReferredKeeps(s, BeginDo(s, t, w, size), t, s.inodes[w.i].tree[w.Idx()], w.i);
    } else {
      BeginMisses(s, t, w, size);
      RelockedKeeps(s, BeginDo(s, t, w, size), t, w.i);
    }
  }

  // ------------------------------------------------ steps that move a range

  // What must be shown of such a step of t from pc to pc' that moves r, besides that it is one
  ghost predicate Moves(s: State, s': State, t: Tid, r: Rid, i: Ino) {
    InodeStep(s, s', t, r, i) && RangeStep(s, s', t, r, i) && ThreadStep(s, s', t, r, i)
  }

  ghost predicate Settles(s': State, t: Tid, r: Rid, i: Ino)
    requires r in s'.dmaps && i in s'.inodes && t in s'.threads
  {
    && RangeInv(r, s'.dmaps[r], s') && ThreadInv(t, s'.threads[t], s')
    && InodeInv(i, s'.inodes[i], s'.dmaps, s'.threads) && FcdInv(s')
  }

  // What it may rely on
  ghost predicate ReadyFor(s: State, t: Tid, pc: Pc, r: Rid, i: Ino) {
    Ready(s, t, pc, i) && r in s.dmaps && RangeInv(r, s.dmaps[r], s) && FcdInv(s)
  }

  lemma GetReadyFor(s: State, t: Tid, r: Rid, i: Ino)
    requires Inv(s) && OnInode(At(s.threads, t), i) && !At(s.threads, t).Evict? && r in s.dmaps
    ensures ReadyFor(s, t, At(s.threads, t), r, i)
  {
    GetReady(s, t, i);
    GetRange(s, r);
  }

  // alloc_dax_mapping takes the first free range.
  lemma TakeFreeMoves(s: State, t: Tid, w: Want)
    requires s.fcd.free != [] && s.fcd.free[0] in s.dmaps && ReadyFor(s, t, On(w, Seek), s.fcd.free[0], w.i)
    ensures Moves(s, TakeFreeDo(s, t, w), t, s.fcd.free[0], w.i)
  {
    Front(s.fcd.free);
  }

  lemma TakeFreeSettles(s: State, t: Tid, w: Want)
    requires s.fcd.free != [] && s.fcd.free[0] in s.dmaps && ReadyFor(s, t, On(w, Seek), s.fcd.free[0], w.i)
    ensures Settles(TakeFreeDo(s, t, w), t, s.fcd.free[0], w.i)
  {
    var r := s.fcd.free[0];
    Front(s.fcd.free);
    UsersStep(s.threads, t, On(w, Have(r)), r);
  }

  lemma TakeFreeKeeps(s: State, t: Tid, w: Want)
    requires Inv(s) && At(s.threads, t) == On(w, Seek) && s.fcd.free != []
    ensures s.fcd.free[0] in s.dmaps && Inv(TakeFreeDo(s, t, w))
  {
    var r := s.fcd.free[0];
    GetReadyFor(s, t, r, w.i);
    TakeFreeMoves(s, t, w);
    TakeFreeSettles(s, t, w);
    StepFrame(s, TakeFreeDo(s, t, w), t, r, w.i);
  }

  // Both reclaim paths take an unused range out of the tree, with invalidate_lock and now also sem held.
  predicate Taking(pc: Pc, pc': Pc, i: Ino, x: nat, r: Rid) {
    || (pc.On? && pc.w.i == i && pc.st.InlinePicked? && pc.st.at == x && pc' == On(pc.w, InlineRemoved(r)))
    || (pc.Work? && pc.wi == i && pc.wx == x && pc.ws.Locked? && pc' == Work(i, x, Removed(r)))
  }

  lemma TakeOutPcs(pc: Pc, pc': Pc, i: Ino, x: nat, r: Rid)
    requires Taking(pc, pc', i, x, r)
    ensures HoldsInval(pc, i) && !pc.Evict? && !(pc.On? && pc.st.Inserted?) && (forall j | OnInode(pc, j) :: j == i)
    ensures forall q :: !HoldsRange(pc, q) && !Uses(pc, q) && !Uses(pc', q)
  {
  }

  lemma TakeOutMoves(s: State, t: Tid, pc: Pc, pc': Pc, i: Ino, x: nat, r: Rid)
    requires ReadyFor(s, t, pc, r, i) && Taking(pc, pc', i, x, r) && s.inodes[i].sem.Nobody?
    requires x in s.inodes[i].tree && s.inodes[i].tree[x] == r && Idleable(s.dmaps[r])
    ensures Moves(s, SetPc(TakeOut(s, t, i, x, r), t, pc'), t, r, i)
  {
    NoUsers(s.threads, r, s.dmaps[r]);
    TakeOutPcs(pc, pc', i, x, r);
  }

  lemma TakeOutInode(s: State, t: Tid, pc: Pc, pc': Pc, i: Ino, x: nat, r: Rid)
    requires ReadyFor(s, t, pc, r, i) && Taking(pc, pc', i, x, r) && s.inodes[i].sem.Nobody?
    requires x in s.inodes[i].tree && s.inodes[i].tree[x] == r
    ensures var s' := SetPc(TakeOut(s, t, i, x, r), t, pc');
      InodeInv(i, s'.inodes[i], s'.dmaps, s'.threads) && FcdInv(s')
  {
    TreeRemove(s.inodes[i].tree, x);
    assert HoldsInval(pc, i);
  }

  lemma TakeOutOwn(s: State, t: Tid, pc: Pc, pc': Pc, i: Ino, x: nat, r: Rid)
    requires ReadyFor(s, t, pc, r, i) && Taking(pc, pc', i, x, r) && s.inodes[i].sem.Nobody?
    requires x in s.inodes[i].tree && s.inodes[i].tree[x] == r && Idleable(s.dmaps[r])
    ensures var s' := SetPc(TakeOut(s, t, i, x, r), t, pc'); RangeInv(r, s'.dmaps[r], s') && ThreadInv(t, pc', s')
  {
    NoUsers(s.threads, r, s.dmaps[r]);
    UsersStep(s.threads, t, pc', r);
    assert HoldsInval(pc, i) && OnInode(pc, i);
  }

  lemma TakeOutKeeps(s: State, t: Tid, pc': Pc, i: Ino, x: nat)
    requires Inv(s) && Unlocked(s, i) && x in s.inodes[i].tree
    requires Taking(At(s.threads, t), pc', i, x, s.inodes[i].tree[x]) && s.inodes[i].tree[x] in s.dmaps
    requires Idleable(s.dmaps[s.inodes[i].tree[x]])
    ensures Inv(SetPc(TakeOut(s, t, i, x, s.inodes[i].tree[x]), t, pc'))
  {
    var pc, r := At(s.threads, t), s.inodes[i].tree[x];
    GetReadyFor(s, t, r, i);
    TakeOutMoves(s, t, pc, pc', i, x, r);
    TakeOutInode(s, t, pc, pc', i, x, r);
    TakeOutOwn(s, t, pc, pc', i, x, r);
    StepFrame(s, SetPc(TakeOut(s, t, i, x, r), t, pc'), t, r, i);
  }
}
