// What holds in every state of every run of DaxWindow.
module DaxSafety {
  import opened Basics
  import opened DaxWindow
  import opened DaxInvariant
  import opened DaxSteps
  import opened DaxMoves

  // ------------------------------------------------ picking a busy range, and inodes coming and going

  lemma ReorderKeeps(s: State, s': State)
    requires Inv(s) && s' == s.(fcd := s.fcd.(busy := s'.fcd.busy)) && Distinct(s'.fcd.busy)
    requires |s'.fcd.busy| == |s.fcd.busy| && forall r :: r in s'.fcd.busy <==> r in s.fcd.busy
    ensures Inv(s')
  {
    forall r | r in s.dmaps ensures RangeInv(r, s'.dmaps[r], s') {
      assert RangeInv(r, s.dmaps[r], s);
    }
    forall t | t in s.threads ensures ThreadInv(t, s'.threads[t], s') {
      assert ThreadInv(t, s.threads[t], s);
    }
  }

  lemma WorkPickKeeps(s: State, t: Tid, r: Rid)
    requires Inv(s) && At(s.threads, t).Idle? && IdleCan(s, WorkPick(r))
    ensures Inv(WorkPickDo(s, t, r))
  {
    var s1 := s.(fcd := s.fcd.(busy := Remove(s.fcd.busy, r) + [r]));
    RemoveDistinct(s.fcd.busy, r);
    Append(Remove(s.fcd.busy, r), r);
    ReorderKeeps(s, s1);
    PickRelocks(s1, WorkPickDo(s, t, r), t, s.dmaps[r].link.inode, s.dmaps[r].start);
    RelockedKeeps(s1, WorkPickDo(s, t, r), t, s.dmaps[r].link.inode);
  }

  lemma PickRelocks(s: State, s': State, t: Tid, i: Ino, x: nat)
    requires At(s.threads, t).Idle? && i in s.inodes && s.inodes[i].evictor.Nobody?
      && s' == SetPc(s, t, Work(i, x, Picked))
    ensures Relocked(s, s', t, i) && ThreadInv(t, s'.threads[t], s')
  {
  }

  lemma NewInodeKeeps(s: State, t: Tid, i: Ino)
    requires Inv(s) && i !in s.inodes
    ensures Inv(SetInode(s, i, Inode(map[], 0, Nobody, Nobody, Nobody)))
  {
    var s' := SetInode(s, i, Inode(map[], 0, Nobody, Nobody, Nobody));
    forall r | r in s.dmaps ensures RangeInv(r, s'.dmaps[r], s') {
      assert RangeInv(r, s.dmaps[r], s);
    }
    forall u | u in s.threads ensures ThreadInv(u, s'.threads[u], s') {
      NewInodeThread(s, u, i, s'.inodes);
    }
    forall j | j in s'.inodes ensures InodeInv(j, s'.inodes[j], s'.dmaps, s'.threads) {
      if j != i {
        assert InodeInv(j, s.inodes[j], s.dmaps, s.threads);
      }
    }
  }

  lemma NewInodeThread(s: State, u: Tid, i: Ino, inodes: map<Ino, Inode>)
    requires u in s.threads && ThreadInv(u, s.threads[u], s) && i !in s.inodes
    requires i in inodes && inodes == s.inodes[i := inodes[i]]
    ensures ThreadInv(u, s.threads[u], s.(inodes := inodes))
  {
    var pc := s.threads[u];
    assert !OnInode(pc, i);
    assert pc.On? ==> OnInode(pc, pc.w.i);
    assert pc.Evict? ==> OnInode(pc, pc.ei);
    assert forall j | HoldsSem(pc, j) || HoldsInval(pc, j) :: OnInode(pc, j);
  }

  // ------------------------------------------------ eviction

  ghost predicate Evicting(s: State, t: Tid, i: Ino, list: seq<Rid>) {
    At(s.threads, t).Idle? && IdleCan(s, EvictTree(i, list))
  }

  lemma NoUsersOnInode(s: State, t: Tid, i: Ino, r: Rid)
    requires (forall u | u in s.threads :: ThreadInv(u, s.threads[u], s) && !OnInode(s.threads[u], i))
    requires r in s.dmaps && s.dmaps[r].home.Tree? && s.dmaps[r].home.ino == i
    ensures Users(s.threads, r) == {}
  {
    forall u | u in s.threads ensures !Uses(s.threads[u], r) {
      assert !OnInode(s.threads[u], i);
      assert OwnsOk(u, s.threads[u], s.dmaps);
    }
  }

  lemma EvictedAt(s: State, i: Ino, list: seq<Rid>, r: Rid)
    requires IdleCan(s, EvictTree(i, list)) && r in list && InodeInv(i, s.inodes[i], s.dmaps, s.threads)
    ensures r in s.dmaps && s.dmaps[r].home.Tree? && s.dmaps[r].home.ino == i
  {
    var tree := s.inodes[i].tree;
    assert r in tree.Values;
    var x :| x in tree && tree[x] == r;
    assert s.dmaps[tree[x]].home.In(i, x);
  }

  lemma EvictedRange(s: State, i: Ino, r: Rid, d: Dmap)
    requires Unlocked(s, i) && d.home.Tree? && d.home.ino == i && Users(s.threads, r) == {}
    requires HomeOk(r, d, s.inodes, s.threads) && RefOk(r, d, s.threads)
    ensures d.refcnt == 1 && d.home.treeBusy && d.link == ToInode(i)
  {
  }

  // An evicted inode has no active iomap: the warning about reference counts is not reached.
  lemma EvictUnused(s: State, t: Tid, i: Ino, list: seq<Rid>, r: Rid)
    requires Inv(s) && Evicting(s, t, i, list) && r in list
    ensures Users(s.threads, r) == {} && s.dmaps[r].refcnt == 1 && s.dmaps[r].home.Tree? && s.dmaps[r].home.ino == i
    ensures s.dmaps[r].home.treeBusy && s.dmaps[r].link == ToInode(i)
  {
    GetInode(s, i);
    EvictedAt(s, i, list, r);
    NoUsersOnInode(s, t, i, r);
    GetRange(s, r);
    EvictedRange(s, i, r, s.dmaps[r]);
  }

  lemma EvictTreeRange(s: State, t: Tid, i: Ino, list: seq<Rid>, r: Rid)
    requires Inv(s) && Evicting(s, t, i, list) && r in s.dmaps
    ensures var s' := EvictTreeDo(s, t, i, list); RangeInv(r, s'.dmaps[r], s')
  {
    GetRange(s, r);
    UsersStep(s.threads, t, Evict(i, list), r);
    if r in list {
      EvictUnused(s, t, i, list, r);
    } else {
      OutsideList(s, i, list, r);
      NotOnInode(s, t, i, list, r);
    }
  }

  lemma OutsideList(s: State, i: Ino, list: seq<Rid>, r: Rid)
    requires IdleCan(s, EvictTree(i, list)) && r !in list
    requires r in s.dmaps && HomeOk(r, s.dmaps[r], s.inodes, s.threads)
    ensures !(s.dmaps[r].home.Tree? && s.dmaps[r].home.ino == i)
  {
  }

  lemma NotOnInode(s: State, t: Tid, i: Ino, list: seq<Rid>, r: Rid)
    requires Evicting(s, t, i, list) && r !in list && r in s.dmaps && HomeOk(r, s.dmaps[r], s.inodes, s.threads)
    requires !(s.dmaps[r].home.Tree? && s.dmaps[r].home.ino == i)
    ensures var s' := EvictTreeDo(s, t, i, list); HomeOk(r, s.dmaps[r], s'.inodes, s'.threads)
  {
  }

  lemma EvictTreeThread(s: State, t: Tid, i: Ino, list: seq<Rid>, u: Tid)
    requires Inv(s) && Evicting(s, t, i, list) && u in s.threads && u != t
    ensures ThreadInv(u, s.threads[u], EvictTreeDo(s, t, i, list))
  {
    var s', pc := EvictTreeDo(s, t, i, list), s.threads[u];
    GetThread(s, u);
    forall r | r in list ensures s.dmaps[r].home.Tree? && s.dmaps[r].home.ino == i {
      EvictUnused(s, t, i, list, r);
    }
    EvictTreeOther(s, t, i, list, u, pc);
  }

  lemma EvictTreeOther(s: State, t: Tid, i: Ino, list: seq<Rid>, u: Tid, pc: Pc)
    requires Evicting(s, t, i, list) && u in s.threads && u != t && s.threads[u] == pc && ThreadInv(u, pc, s)
    requires forall r | r in list :: s.dmaps[r].home.Tree? && s.dmaps[r].home.ino == i
    ensures ThreadInv(u, pc, EvictTreeDo(s, t, i, list))
  {
    assert !OnInode(pc, i);
    assert pc.On? ==> OnInode(pc, pc.w.i);
    assert pc.Evict? ==> OnInode(pc, pc.ei);
    assert forall j | HoldsSem(pc, j) || HoldsInval(pc, j) :: OnInode(pc, j);
    EvictTreeOwns(s, t, i, list, u, pc);
  }

  lemma EvictTreeOwns(s: State, t: Tid, i: Ino, list: seq<Rid>, u: Tid, pc: Pc)
    requires Evicting(s, t, i, list) && !OnInode(pc, i) && OwnsOk(u, pc, s.dmaps)
    requires forall r | r in list :: s.dmaps[r].home.Tree? && s.dmaps[r].home.ino == i
    ensures OwnsOk(u, pc, EvictTreeDo(s, t, i, list).dmaps)
  {
  }

  lemma EvictTreeInode(s: State, t: Tid, i: Ino, list: seq<Rid>, j: Ino)
    requires Inv(s) && Evicting(s, t, i, list) && j in s.inodes
    ensures var s' := EvictTreeDo(s, t, i, list); InodeInv(j, s'.inodes[j], s'.dmaps, s'.threads)
  {
    GetInode(s, j);
    forall r | r in list ensures s.dmaps[r].home.Tree? && s.dmaps[r].home.ino == i {
      EvictUnused(s, t, i, list, r);
    }
    if j == i {
      EvictedInode(s, t, i, list);
    } else {
      EvictTreeOtherInode(s, t, i, list, j);
    }
  }

  lemma EvictedInode(s: State, t: Tid, i: Ino, list: seq<Rid>)
    requires Evicting(s, t, i, list) && InodeInv(i, s.inodes[i], s.dmaps, s.threads)
    ensures var s' := EvictTreeDo(s, t, i, list); InodeInv(i, s'.inodes[i], s'.dmaps, s'.threads)
  {
    assert forall u: Tid :: !OnInode(At(s.threads, u), i);
    assert forall u: Tid | HoldsInval(At(s.threads, u), i) :: OnInode(At(s.threads, u), i);
  }

  lemma EvictTreeOtherInode(s: State, t: Tid, i: Ino, list: seq<Rid>, j: Ino)
    requires Evicting(s, t, i, list) && j in s.inodes && j != i && InodeInv(j, s.inodes[j], s.dmaps, s.threads)
    requires forall r | r in list :: s.dmaps[r].home.Tree? && s.dmaps[r].home.ino == i
    ensures var s' := EvictTreeDo(s, t, i, list); InodeInv(j, s'.inodes[j], s'.dmaps, s'.threads)
  {
  }

  lemma EvictTreeOwn(s: State, t: Tid, i: Ino, list: seq<Rid>)
    requires Evicting(s, t, i, list) && FcdInv(s)
    ensures var s' := EvictTreeDo(s, t, i, list); ThreadInv(t, s'.threads[t], s') && FcdInv(s')
  {
  }

  // If the invariant holds of each range, thread and inode and of the lists, it holds.
  lemma Together(s: State)
    requires (forall r | r in s.dmaps :: RangeInv(r, s.dmaps[r], s)) && FcdInv(s)
    requires forall t | t in s.threads :: ThreadInv(t, s.threads[t], s)
    requires forall i | i in s.inodes :: InodeInv(i, s.inodes[i], s.dmaps, s.threads)
    ensures Inv(s)
  {
  }

  lemma EvictTreeKeeps(s: State, t: Tid, i: Ino, list: seq<Rid>, s': State)
    requires Inv(s) && Evicting(s, t, i, list) && s' == EvictTreeDo(s, t, i, list)
    ensures Inv(s')
  {
    forall r | r in s'.dmaps ensures RangeInv(r, s'.dmaps[r], s') {
      EvictTreeRange(s, t, i, list, r);
    }
    EvictTreeOwn(s, t, i, list);
    forall u | u in s'.threads ensures ThreadInv(u, s'.threads[u], s') {
      if u != t {
        EvictTreeThread(s, t, i, list, u);
      }
    }
    forall j | j in s'.inodes ensures InodeInv(j, s'.inodes[j], s'.dmaps, s'.threads) {
      EvictTreeInode(s, t, i, list, j);
    }
    Together(s');
  }

  // ------------------------------------------------ freeing what was evicted

  ghost predicate Freeing(s: State, t: Tid, i: Ino, list: seq<Rid>) {
    At(s.threads, t) == Evict(i, list) && i in s.inodes && s.inodes[i].evictor.Is(t)
      && forall r | r in list :: r in s.dmaps
  }

  lemma EvictHolds(s: State, t: Tid, i: Ino, list: seq<Rid>, r: Rid)
    requires Inv(s) && At(s.threads, t) == Evict(i, list)
    ensures Freeing(s, t, i, list) && Distinct(list) && s.inodes[i].tree == map[]
    ensures r in list ==> s.dmaps[r].home == With(t, true) && r in s.fcd.busy && r !in s.fcd.free
  {
    GetThread(s, t);
    assert OnInode(Evict(i, list), i);
    forall x | x in list ensures x in s.dmaps && s.dmaps[x].home == With(t, true) {
      assert HoldsRange(Evict(i, list), x);
    }
    if r in list {
      GetRange(s, r);
    }
  }

  lemma EvictLists(s: State, t: Tid, i: Ino, list: seq<Rid>)
    requires Inv(s) && Freeing(s, t, i, list)
    ensures var s' := EvictFreeDo(s, t, i, list);
            && FcdInv(s')
            && (forall x :: x in s'.fcd.busy <==> x in s.fcd.busy && x !in list)
            && (forall x :: x in s'.fcd.free <==> x in s.fcd.free || x in list)
  {
    forall r | r in list ensures r in s.fcd.busy && r !in s.fcd.free {
      EvictHolds(s, t, i, list, r);
    }
    EvictHolds(s, t, i, list, 0);
    RemoveAllDistinct(s.fcd.busy, list);
    AppendAll(s.fcd.free, list);
  }

  // No other thread is on the inode any more.
  lemma OnlyEvictor(s: State, t: Tid, i: Ino, list: seq<Rid>, u: Tid)
    requires Freeing(s, t, i, list) && u != t && ThreadInv(u, At(s.threads, u), s)
    ensures !OnInode(At(s.threads, u), i)
  {
  }

  lemma EvictFreeHome(s: State, t: Tid, i: Ino, list: seq<Rid>, r: Rid, d: Dmap)
    requires Freeing(s, t, i, list) && HomeOk(r, d, s.inodes, s.threads) && r !in list && s.inodes[i].tree == map[]
    requires d.home.With? ==> ThreadInv(d.home.holder, At(s.threads, d.home.holder), s)
    ensures HomeOk(r, d, s.inodes - {i}, s.threads[t := Idle])
  {
    if d.home.With? {
      if d.home.holder != t {
        OnlyEvictor(s, t, i, list, d.home.holder);
      }
    }
  }

  lemma EvictFreeRange(s: State, t: Tid, i: Ino, list: seq<Rid>, r: Rid)
    requires Inv(s) && Freeing(s, t, i, list) && r in s.dmaps
    ensures var s' := EvictFreeDo(s, t, i, list); RangeInv(r, s'.dmaps[r], s')
  {
    GetRange(s, r);
    EvictHolds(s, t, i, list, r);
    EvictLists(s, t, i, list);
    UsersStep(s.threads, t, Idle, r);
    if r !in list {
      if s.dmaps[r].home.With? {
        GetThread(s, s.dmaps[r].home.holder);
      }
      EvictFreeHome(s, t, i, list, r, s.dmaps[r]);
    }
  }

  lemma EvictFreeThread(s: State, t: Tid, i: Ino, list: seq<Rid>, u: Tid, pc: Pc)
    requires Freeing(s, t, i, list) && u != t && u in s.threads && s.threads[u] == pc && ThreadInv(u, pc, s)
    requires forall r | r in list :: s.dmaps[r].home == With(t, true)
    ensures ThreadInv(u, pc, EvictFreeDo(s, t, i, list))
  {
    OnlyEvictor(s, t, i, list, u);
    assert pc.On? ==> OnInode(pc, pc.w.i);
    assert pc.Evict? ==> OnInode(pc, pc.ei);
    assert forall j | HoldsSem(pc, j) || HoldsInval(pc, j) :: OnInode(pc, j);
    EvictFreeOwns(s, t, i, list, u, pc);
  }

  lemma EvictFreeOwns(s: State, t: Tid, i: Ino, list: seq<Rid>, u: Tid, pc: Pc)
    requires Freeing(s, t, i, list) && u != t && OwnsOk(u, pc, s.dmaps)
    requires forall r | r in list :: s.dmaps[r].home == With(t, true)
    ensures OwnsOk(u, pc, EvictFreeDo(s, t, i, list).dmaps)
  {
  }

  lemma EvictFreeInode(s: State, t: Tid, i: Ino, list: seq<Rid>, j: Ino)
    requires Freeing(s, t, i, list) && j in s.inodes && j != i && InodeInv(j, s.inodes[j], s.dmaps, s.threads)
    requires forall r | r in list :: s.dmaps[r].home == With(t, true)
    ensures var s' := EvictFreeDo(s, t, i, list); InodeInv(j, s'.inodes[j], s'.dmaps, s'.threads)
  {
    assert !HoldsSem(Evict(i, list), j) && !HoldsInval(Evict(i, list), j);
  }

  lemma EvictFreeThreads(s: State, t: Tid, i: Ino, list: seq<Rid>, u: Tid)
    requires Inv(s) && Freeing(s, t, i, list) && u in s.threads && u != t
    ensures ThreadInv(u, s.threads[u], EvictFreeDo(s, t, i, list))
  {
    GetThread(s, u);
    forall r | r in list ensures s.dmaps[r].home == With(t, true) {
      EvictHolds(s, t, i, list, r);
    }
    EvictFreeThread(s, t, i, list, u, s.threads[u]);
  }

  lemma EvictFreeInodes(s: State, t: Tid, i: Ino, list: seq<Rid>, j: Ino)
    requires Inv(s) && Freeing(s, t, i, list) && j in s.inodes && j != i
    ensures var s' := EvictFreeDo(s, t, i, list); InodeInv(j, s'.inodes[j], s'.dmaps, s'.threads)
  {
    GetInode(s, j);
    forall r | r in list ensures s.dmaps[r].home == With(t, true) {
      EvictHolds(s, t, i, list, r);
    }
    EvictFreeInode(s, t, i, list, j);
  }

  lemma IdleThread(t: Tid, s: State)
    ensures ThreadInv(t, Idle, s)
  {
  }

  lemma EvictFreeAllThreads(s: State, t: Tid, i: Ino, list: seq<Rid>, s': State)
    requires Inv(s) && Freeing(s, t, i, list) && s' == EvictFreeDo(s, t, i, list)
    ensures forall u | u in s'.threads :: ThreadInv(u, s'.threads[u], s')
  {
    forall u | u in s'.threads ensures ThreadInv(u, s'.threads[u], s') {
      if u == t {
        IdleThread(t, s');
      } else {
        EvictFreeThreads(s, t, i, list, u);
      }
    }
  }

  lemma EvictFreeAllInodes(s: State, t: Tid, i: Ino, list: seq<Rid>, s': State)
    requires Inv(s) && Freeing(s, t, i, list) && s' == EvictFreeDo(s, t, i, list)
    ensures forall j | j in s'.inodes :: InodeInv(j, s'.inodes[j], s'.dmaps, s'.threads)
  {
    forall j | j in s'.inodes ensures InodeInv(j, s'.inodes[j], s'.dmaps, s'.threads) {
      EvictFreeInodes(s, t, i, list, j);
    }
  }

  lemma EvictFreeAllRanges(s: State, t: Tid, i: Ino, list: seq<Rid>, s': State)
    requires Inv(s) && Freeing(s, t, i, list) && s' == EvictFreeDo(s, t, i, list)
    ensures forall r | r in s'.dmaps :: RangeInv(r, s'.dmaps[r], s')
  {
    forall r | r in s'.dmaps ensures RangeInv(r, s'.dmaps[r], s') {
      EvictFreeRange(s, t, i, list, r);
    }
  }

  lemma EvictFreeKeeps(s: State, t: Tid, i: Ino, list: seq<Rid>, s': State)
    requires Inv(s) && At(s.threads, t) == Evict(i, list) && s' == EvictFreeDo(s, t, i, list)
    ensures Inv(s')
  {
    EvictHolds(s, t, i, list, 0);
    EvictLists(s, t, i, list);
    EvictFreeAllRanges(s, t, i, list, s');
    EvictFreeAllThreads(s, t, i, list, s');
    EvictFreeAllInodes(s, t, i, list, s');
    Together(s');
  }

  // ------------------------------------------------ every step, every run

  lemma StageKeeps(s: State, t: Tid, w: Want, st: Stage, a: Action)
    requires Inv(s) && At(s.threads, t) == On(w, st) && StageCan(s, w, st, a)
    ensures Inv(StageDo(s, t, w, st, a))
  {
    match a
    case UpgradeMapping(size, ok) => UpgradeKeeps(s, t, w, st.upg, size, ok);
    case TakeFree => TakeFreeKeeps(s, t, w);
    case InlineTake(ok) => InlineTakeKeeps(s, t, w, st.pick, st.at, ok);
    case InlineUnbusy => InlineUnbusyKeeps(s, t, w, st.gone);
    case SetUp(size, ok) =>
      if w.Idx() in s.inodes[w.i].tree {
        SetUpHitKeeps(s, t, w, st.got, size, ok);
      } else {
        SetUpMissKeeps(s, t, w, st.got, size, ok);
      }
    case Return => ReturnKeeps(s, t, w, st.extra, st.fill);
    case Publish(size) => PublishKeeps(s, t, w, st.made, size);
    case _ => StageLocks(s, t, w, st, a);
  }

  lemma WorkKeeps(s: State, t: Tid, i: Ino, x: nat, ws: WorkStage, a: Action)
    requires Inv(s) && At(s.threads, t) == Work(i, x, ws) && WorkCan(s, i, ws, a)
    ensures Inv(WorkDo(s, t, i, x, ws, a))
  {
    match a
    case WorkTake(ok) => WorkTakeKeeps(s, t, i, x, ok);
    case WorkFree => WorkFreeKeeps(s, t, i, x, ws.freed);
    case _ => WorkLocks(s, t, i, x, ws, a);
  }

  lemma IdleKeeps(s: State, t: Tid, a: Action)
    requires Inv(s) && At(s.threads, t).Idle? && IdleCan(s, a)
    ensures Inv(IdleDo(s, t, a))
  {
    match a
    case Begin(w, size) => BeginKeeps(s, t, w, size);
    case WorkPick(r) => WorkPickKeeps(s, t, r);
    case EvictTree(i, list) => EvictTreeKeeps(s, t, i, list, EvictTreeDo(s, t, i, list));
    case NewInode(i) => NewInodeKeeps(s, t, i);
  }

  lemma StepKeeps(s: State, t: Tid, a: Action)
    requires Inv(s) && Can(s, t, a)
    ensures Inv(Next(s, t, a))
  {
    var pc := At(s.threads, t);
    match pc
    case Idle => IdleKeeps(s, t, a);
    case On(w, st) => StageKeeps(s, t, w, st, a);
    case Mapped(m, r, len) => EndKeeps(s, t, m, r, len);
    case Work(i, x, ws) => WorkKeeps(s, t, i, x, ws, a);
    case Evict(i, list) => EvictFreeKeeps(s, t, i, list, EvictFreeDo(s, t, i, list));
  }

  datatype Step = Step(t: Tid, a: Action)

  // A run: a window of n free ranges, then one step of some thread after another
  ghost predicate Run(n: nat, ss: seq<State>, steps: seq<Step>) {
    && |ss| == |steps| + 1 && Init(ss[0], n)
    && forall k | 0 <= k < |steps| ::
      Can(ss[k], steps[k].t, steps[k].a) && ss[k + 1] == Next(ss[k], steps[k].t, steps[k].a)
  }

  lemma InitKeeps(s: State, n: nat)
    requires Init(s, n)
    ensures Inv(s)
  {
    forall r | r in s.dmaps ensures RangeInv(r, s.dmaps[r], s) {
      assert s.fcd.free[r] == r;
      assert Users(s.threads, r) == {};
    }
  }

  lemma {:induction false} RunKeeps(n: nat, ss: seq<State>, steps: seq<Step>, k: nat)
    requires Run(n, ss, steps) && k < |ss|
    ensures Inv(ss[k])
  {
    if k == 0 {
      InitKeeps(ss[0], n);
    } else {
      RunKeeps(n, ss, steps, k - 1);
      StepKeeps(ss[k - 1], steps[k - 1].t, steps[k - 1].a);
    }
  }

  // ------------------------------------------------ where a range is

  datatype Place = FreeList | InTree(pi: Ino, px: nat) | Private(pt: Tid)

  ghost predicate IsAt(s: State, r: Rid, p: Place) {
    match p
    case FreeList => r in s.fcd.free
    case InTree(i, x) => i in s.inodes && x in s.inodes[i].tree && s.inodes[i].tree[x] == r
    case Private(t) => HoldsRange(At(s.threads, t), r)
  }

  function PlaceOf(h: Home): Place {
    match h
    case Free => FreeList
    case Tree(i, x, _) => InTree(i, x)
    case With(t, _) => Private(t)
  }

  lemma OnePlace(s: State, r: Rid, p: Place)
    requires Inv(s) && r in s.dmaps
    ensures IsAt(s, r, p) <==> p == PlaceOf(s.dmaps[r].home)
  {
    GetRange(s, r);
    if p.InTree? && p.pi in s.inodes {
      GetInode(s, p.pi);
    }
    if p.Private? {
      GetThread(s, p.pt);
    }
  }

  // Each range of the window is always in exactly one place: the free list, one index of one inode's tree, or in the
  // hands of one thread.
  lemma ExactlyOnePlace(n: nat, ss: seq<State>, steps: seq<Step>, k: nat, r: Rid)
    requires Run(n, ss, steps) && k < |ss| && r < n
    ensures r in ss[k].dmaps
    ensures exists p :: IsAt(ss[k], r, p) && forall p' :: IsAt(ss[k], r, p') ==> p' == p
  {
    RunKeeps(n, ss, steps, k);
    SameWindow(n, ss, steps, k);
    var p := PlaceOf(ss[k].dmaps[r].home);
    forall p' ensures IsAt(ss[k], r, p') <==> p' == p {
      OnePlace(ss[k], r, p');
    }
    assert IsAt(ss[k], r, p);
  }

  lemma StageWindow(s: State, t: Tid, w: Want, st: Stage, a: Action)
    requires StageCan(s, w, st, a)
    ensures StageDo(s, t, w, st, a).dmaps.Keys == s.dmaps.Keys
  {
  }

  lemma StepWindow(s: State, t: Tid, a: Action)
    requires Can(s, t, a)
    ensures Next(s, t, a).dmaps.Keys == s.dmaps.Keys
  {
    var pc := At(s.threads, t);
    if pc.On? {
      StageWindow(s, t, pc.w, pc.st, a);
    }
  }

  lemma {:induction false} SameWindow(n: nat, ss: seq<State>, steps: seq<Step>, k: nat)
    requires Run(n, ss, steps) && k < |ss|
    ensures forall r: Rid :: r in ss[k].dmaps <==> r < n
  {
    if k > 0 {
      SameWindow(n, ss, steps, k - 1);
      StepWindow(ss[k - 1], steps[k - 1].t, steps[k - 1].a);
      assert forall r: Rid :: r in ss[k].dmaps <==> r in ss[k].dmaps.Keys;
    }
  }

  // The counters are the lengths of the lists and the sizes of the trees.
  lemma CountersExact(n: nat, ss: seq<State>, steps: seq<Step>, k: nat, i: Ino)
    requires Run(n, ss, steps) && k < |ss|
    ensures ss[k].fcd.nrFree == |ss[k].fcd.free| && ss[k].fcd.nrBusy == |ss[k].fcd.busy|
    ensures i in ss[k].inodes ==> ss[k].inodes[i].nr == |ss[k].inodes[i].tree|
  {
    RunKeeps(n, ss, steps, k);
    if i in ss[k].inodes {
      GetInode(ss[k], i);
    }
  }

  // ------------------------------------------------ what an iomap may rely on

  // While an iomap is active its range stays at its index of its inode's tree, and is not free to reclaim.
  lemma ActiveStays(n: nat, ss: seq<State>, steps: seq<Step>, k: nat, t: Tid, m: Want, r: Rid, len: nat)
    requires Run(n, ss, steps) && k < |ss| && At(ss[k].threads, t) == Mapped(m, r, len)
    ensures var s := ss[k]; m.i in s.inodes && m.Idx() in s.inodes[m.i].tree && s.inodes[m.i].tree[m.Idx()] == r
    ensures r in ss[k].dmaps && !Idleable(ss[k].dmaps[r]) && m.pos % FUSE_DAX_SZ + len <= FUSE_DAX_SZ
  {
    RunKeeps(n, ss, steps, k);
    MappedStays(ss[k], t, m, r, len);
  }

  lemma MappedStays(s: State, t: Tid, m: Want, r: Rid, len: nat)
    requires Inv(s) && At(s.threads, t) == Mapped(m, r, len)
    ensures m.i in s.inodes && m.Idx() in s.inodes[m.i].tree && s.inodes[m.i].tree[m.Idx()] == r
    ensures r in s.dmaps && !Idleable(s.dmaps[r]) && LenOk(m, len)
  {
    GetThread(s, t);
    assert Uses(Mapped(m, r, len), r);
    GetRange(s, r);
    assert t in Users(s.threads, r);
  }

  // The window address that an iomap gives byte b of its file
  function Address(m: Want, r: Rid, b: nat): int { r * FUSE_DAX_SZ + m.pos % FUSE_DAX_SZ + (b - m.pos) }

  // No window address ever backs two places: two active iomaps that give the same address are for the same byte of
  // the same inode.
  lemma NoAlias(n: nat, ss: seq<State>, steps: seq<Step>, k: nat, t1: Tid, m1: Want, r1: Rid, len1: nat, b1: nat,
                t2: Tid, m2: Want, r2: Rid, len2: nat, b2: nat)
    requires Run(n, ss, steps) && k < |ss|
    requires At(ss[k].threads, t1) == Mapped(m1, r1, len1) && m1.pos <= b1 < m1.pos + len1
    requires At(ss[k].threads, t2) == Mapped(m2, r2, len2) && m2.pos <= b2 < m2.pos + len2
    requires Address(m1, r1, b1) == Address(m2, r2, b2)
    ensures m1.i == m2.i && b1 == b2
  {
    ActiveStays(n, ss, steps, k, t1, m1, r1, len1);
    ActiveStays(n, ss, steps, k, t2, m2, r2, len2);
    SameRange(r1, m1.pos % FUSE_DAX_SZ + (b1 - m1.pos), r2, m2.pos % FUSE_DAX_SZ + (b2 - m2.pos));
    RunKeeps(n, ss, steps, k);
    OnePlace(ss[k], r1, InTree(m1.i, m1.Idx()));
    OnePlace(ss[k], r1, InTree(m2.i, m2.Idx()));
    assert m1.pos == m1.Idx() * FUSE_DAX_SZ + m1.pos % FUSE_DAX_SZ;
    assert m2.pos == m2.Idx() * FUSE_DAX_SZ + m2.pos % FUSE_DAX_SZ;
  }

  lemma SameRange(r1: nat, o1: nat, r2: nat, o2: nat)
    requires o1 < FUSE_DAX_SZ && o2 < FUSE_DAX_SZ && r1 * FUSE_DAX_SZ + o1 == r2 * FUSE_DAX_SZ + o2
    ensures r1 == r2 && o1 == o2
  {
    assert (r1 * FUSE_DAX_SZ + o1) / FUSE_DAX_SZ == r1;
    assert (r2 * FUSE_DAX_SZ + o2) / FUSE_DAX_SZ == r2;
  }

  // The branch for a vanished range (987-991) is unreachable, and so is the failed lookup of an upgrade (523-524).
  lemma VanishedUnreachable(n: nat, ss: seq<State>, steps: seq<Step>, k: nat, t: Tid, w: Want, pick: Rid, x: nat)
    requires Run(n, ss, steps) && k < |ss|
    ensures At(ss[k].threads, t) == On(w, InlinePicked(pick, x)) ==>
              w.i in ss[k].inodes && x in ss[k].inodes[w.i].tree && ss[k].inodes[w.i].tree[x] == pick
    ensures At(ss[k].threads, t) == On(w, Upgrade(pick)) ==>
              w.i in ss[k].inodes && w.Idx() in ss[k].inodes[w.i].tree && ss[k].inodes[w.i].tree[w.Idx()] == pick
  {
    RunKeeps(n, ss, steps, k);
    if At(ss[k].threads, t) == On(w, InlinePicked(pick, x)) {
      PickStays(ss[k], t, w, pick, x);
    } else if At(ss[k].threads, t) == On(w, Upgrade(pick)) {
      UpgradeFinds(ss[k], t, w, pick);
    }
  }

  // A range on busy_ranges points to an inode that has not been freed, and no reference count reaches zero.
  lemma BusyInodeAlive(n: nat, ss: seq<State>, steps: seq<Step>, k: nat, r: Rid)
    requires Run(n, ss, steps) && k < |ss| && r in ss[k].dmaps
    ensures ss[k].dmaps[r].refcnt >= 1
    ensures r in ss[k].fcd.busy ==> ss[k].dmaps[r].link.ToInode? && ss[k].dmaps[r].link.inode in ss[k].inodes
  {
    RunKeeps(n, ss, steps, k);
    GetRange(ss[k], r);
  }
}
