// The inductive invariant of DaxWindow.
module DaxInvariant {
  import opened Basics
  import opened Counting
  import opened DaxWindow

  // ------------------------------------------------ what a program counter says

  // The ranges a thread has to itself ...
  predicate HoldsRange(pc: Pc, r: Rid) {
    || (pc.On? && pc.st.Have? && pc.st.got == r)
    || (pc.On? && pc.st.GiveBack? && pc.st.extra == r)
    || (pc.On? && pc.st.InlineRemoved? && pc.st.gone == r)
    || (pc.Work? && pc.ws.Removed? && pc.ws.freed == r)
    || (pc.Evict? && r in pc.list)
  }

  // ... are still on busy_ranges.
  predicate HeldBusy(pc: Pc) { (pc.On? && pc.st.InlineRemoved?) || (pc.Work? && pc.ws.Removed?) || pc.Evict? }

  // A reference beyond the first: an active iomap, or one taken for an upgrade
  predicate Uses(pc: Pc, r: Rid) {
    || (pc.Mapped? && pc.r == r)
    || (pc.On? && pc.st.Upgrade? && pc.st.upg == r)
    || (pc.On? && pc.st.GiveBack? && pc.st.fill.Filled? && pc.st.fill.from == r)
  }

  function WantOf(pc: Pc): Want
    requires pc.On? || pc.Mapped?
  {
    if pc.On? then pc.w else pc.m
  }

  ghost function Users(ths: map<Tid, Pc>, r: Rid): set<Tid> { Where(ths, (pc: Pc) => Uses(pc, r)) }

  predicate HoldsSem(pc: Pc, i: Ino) {
    || (pc.On? && pc.w.i == i && (pc.st.InlineRemoved? || pc.st.GiveBack? || pc.st.Inserted?))
    || (pc.Work? && pc.wi == i && pc.ws.Removed?)
  }

  predicate HoldsInval(pc: Pc, i: Ino) {
    || (pc.On? && pc.w.i == i && (pc.st.InlineLocked? || pc.st.InlinePicked? || pc.st.InlineRemoved?))
    || (pc.Work? && pc.wi == i && !pc.ws.Picked?)
  }

  predicate IsInserted(pc: Pc, i: Ino, x: nat, r: Rid) {
    pc.On? && pc.st.Inserted? && pc.w.i == i && pc.w.Idx() == x && pc.st.made == r
  }

  // ------------------------------------------------ one range

  // Each range is where its home says, and nowhere else.
  ghost predicate HomeOk(r: Rid, d: Dmap, inodes: map<Ino, Inode>, ths: map<Tid, Pc>) {
    match d.home
    case Free => true
    case Tree(i, x, listed) =>
      && i in inodes && x in inodes[i].tree && inodes[i].tree[x] == r && d.link == ToInode(i) && d.start == x
      && (!listed ==> inodes[i].sem.Thread? && IsInserted(At(ths, inodes[i].sem.id), i, x, r))
    case With(t, listed) =>
      && HoldsRange(At(ths, t), r) && listed == HeldBusy(At(ths, t))
      && (listed ==> d.link.ToInode? && d.link.inode in inodes && OnInode(At(ths, t), d.link.inode))
  }

  ghost predicate ListOk(r: Rid, d: Dmap, fcd: Fcd) {
    (r in fcd.free <==> d.home.Free?) && (r in fcd.busy <==> d.home.Busy())
  }

  ghost predicate RefOk(r: Rid, d: Dmap, ths: map<Tid, Pc>) { d.refcnt == 1 + |Users(ths, r)| }

  ghost predicate RangeInv(r: Rid, d: Dmap, s: State) {
    HomeOk(r, d, s.inodes, s.threads) && ListOk(r, d, s.fcd) && RefOk(r, d, s.threads)
  }

  // ------------------------------------------------ one thread

  // The iomap stays within its range.
  predicate LenOk(w: Want, len: nat) {
    w.pos % FUSE_DAX_SZ + len <= FUSE_DAX_SZ && (w.fault ==> w.pos % PAGE_SIZE == 0)
  }

  predicate WantOk(w: Want) { w.fault ==> w.pos % PAGE_SIZE == 0 }

  ghost predicate OwnsOk(t: Tid, pc: Pc, dmaps: map<Rid, Dmap>) {
    && (forall r | HoldsRange(pc, r) :: r in dmaps && dmaps[r].home == With(t, HeldBusy(pc)))
    && (forall r | Uses(pc, r) :: r in dmaps && dmaps[r].home.In(WantOf(pc).i, WantOf(pc).Idx()))
    && (pc.On? && pc.st.Inserted? ==>
          pc.st.made in dmaps && dmaps[pc.st.made].home == Tree(pc.w.i, pc.w.Idx(), false))
    && (pc.Evict? ==> Distinct(pc.list))
  }

  ghost predicate OnOk(t: Tid, pc: Pc, inodes: map<Ino, Inode>) {
    && (forall i | OnInode(pc, i) :: i in inodes)
    && (forall i | OnInode(pc, i) && !pc.Evict? :: inodes[i].evictor.Nobody?)
    && (forall i | HoldsSem(pc, i) :: i in inodes && inodes[i].sem.Is(t))
    && (forall i | HoldsInval(pc, i) :: i in inodes && inodes[i].inval.Is(t))
    && (pc.Evict? ==> inodes[pc.ei].evictor.Is(t) && inodes[pc.ei].tree == map[])
    && (pc.On? && pc.st.InlinePicked? ==>
          pc.st.at in inodes[pc.w.i].tree && inodes[pc.w.i].tree[pc.st.at] == pc.st.pick)
  }

  ghost predicate WantsOk(pc: Pc) {
    && (pc.On? ==> WantOk(pc.w) && (pc.st.GiveBack? && pc.st.fill.Filled? ==> LenOk(pc.w, pc.st.fill.len)))
    && (pc.Mapped? ==> LenOk(pc.m, pc.mlen))
  }

  ghost predicate ThreadInv(t: Tid, pc: Pc, s: State) { OwnsOk(t, pc, s.dmaps) && OnOk(t, pc, s.inodes) && WantsOk(pc) }

  // ------------------------------------------------ one inode, and the lists

  ghost predicate InodeInv(i: Ino, n: Inode, dmaps: map<Rid, Dmap>, ths: map<Tid, Pc>) {
    && (forall x | x in n.tree :: n.tree[x] in dmaps && dmaps[n.tree[x]].home.In(i, x))
    && n.nr == |n.tree|
    && (n.sem.Thread? ==> HoldsSem(At(ths, n.sem.id), i))
    && (n.inval.Thread? ==> HoldsInval(At(ths, n.inval.id), i))
  }

  // The counters are the lengths of the lists.
  ghost predicate FcdInv(s: State) {
    && Distinct(s.fcd.free) && Distinct(s.fcd.busy) && s.fcd.nrFree == |s.fcd.free| && s.fcd.nrBusy == |s.fcd.busy|
    && (forall r | r in s.fcd.free || r in s.fcd.busy :: r in s.dmaps)
  }

  ghost predicate Inv(s: State) {
    && (forall r | r in s.dmaps :: RangeInv(r, s.dmaps[r], s))
    && (forall t | t in s.threads :: ThreadInv(t, s.threads[t], s))
    && (forall i | i in s.inodes :: InodeInv(i, s.inodes[i], s.dmaps, s.threads))
    && FcdInv(s)
  }

  // ------------------------------------------------ steps on one range, one inode and one thread

  // What such a step from s to s' may do to the inode i ...
  ghost predicate InodeStep(s: State, s': State, t: Tid, r: Rid, i: Ino) {
    && i in s.inodes && i in s'.inodes && s'.inodes == s.inodes[i := s'.inodes[i]]
    && var n, n' := s.inodes[i], s'.inodes[i];
      && n.evictor.Nobody? && n'.evictor.Nobody?
      && (n'.sem == n.sem || n.sem.Nobody? || n.sem.Is(t)) && (n'.inval == n.inval || n.inval.Nobody? || n.inval.Is(t))
      && (forall x | x in n.tree && n.tree[x] != r :: x in n'.tree && n'.tree[x] == n.tree[x])
      && (forall x | x in n'.tree && n'.tree[x] != r :: x in n.tree && n'.tree[x] == n.tree[x])
      && (n.inval.Is(t) || forall x | x in n.tree :: x in n'.tree && n'.tree[x] == n.tree[x])
  }

  // ... to the range r ...
  ghost predicate RangeStep(s: State, s': State, t: Tid, r: Rid, i: Ino) {
    && s'.dmaps.Keys == s.dmaps.Keys && (forall q | q in s.dmaps && q != r :: s'.dmaps[q] == s.dmaps[q])
    && (r in s.dmaps ==>
          var h, h' := s.dmaps[r].home, s'.dmaps[r].home;
          || h == h' || h.Free? || h.Of(t)
          || (h.Tree? && h.ino == i && h'.Tree? && h'.In(i, h.at) && i in s.inodes && s.inodes[i].sem.Is(t))
          || (h.Tree? && h.ino == i && (h.treeBusy || (i in s.inodes && s.inodes[i].sem.Is(t)))
              && Users(s.threads, r) == {}))
    && (forall q | q != r :: q in s'.fcd.free <==> q in s.fcd.free)
    && (forall q | q != r :: q in s'.fcd.busy <==> q in s.fcd.busy)
  }

  // ... and to the thread t.
  ghost predicate ThreadStep(s: State, s': State, t: Tid, r: Rid, i: Ino) {
    && t in s'.threads && s'.threads == s.threads[t := s'.threads[t]]
    && var pc, pc' := At(s.threads, t), s'.threads[t];
      && !pc.Evict?
      && (forall q | q != r && HoldsRange(pc, q) :: HoldsRange(pc', q) && !HeldBusy(pc) && !HeldBusy(pc'))
      && (forall q | q != r :: Uses(pc, q) == Uses(pc', q))
      && (pc.On? && pc.st.Inserted? ==> pc.st.made == r)
      && (forall j | OnInode(pc, j) :: j == i)
  }

  lemma UsersStep(ths: map<Tid, Pc>, t: Tid, pc: Pc, r: Rid)
    ensures |Users(ths[t := pc], r)| == |Users(ths, r)| - B(Uses(At(ths, t), r)) + B(Uses(pc, r))
    ensures Uses(At(ths, t), r) ==> |Users(ths, r)| >= 1
  {
    WhereStep(ths, (pc: Pc) => Uses(pc, r), t, pc);
  }

  lemma OtherRange(s: State, s': State, t: Tid, r: Rid, i: Ino, q: Rid)
    requires InodeStep(s, s', t, r, i) && RangeStep(s, s', t, r, i) && ThreadStep(s, s', t, r, i)
    requires q in s.dmaps && q != r && RangeInv(q, s.dmaps[q], s)
    ensures RangeInv(q, s'.dmaps[q], s')
  {
    UsersStep(s.threads, t, s'.threads[t], q);
    OtherHome(s, s', t, r, i, q, s.dmaps[q]);
  }

  lemma OtherHome(s: State, s': State, t: Tid, r: Rid, i: Ino, q: Rid, d: Dmap)
    requires InodeStep(s, s', t, r, i) && ThreadStep(s, s', t, r, i) && q != r && HomeOk(q, d, s.inodes, s.threads)
    ensures HomeOk(q, d, s'.inodes, s'.threads)
  {
  }

  lemma OtherThread(s: State, s': State, t: Tid, r: Rid, i: Ino, u: Tid)
    requires InodeStep(s, s', t, r, i) && RangeStep(s, s', t, r, i)
    requires u in s.threads && u != t && ThreadInv(u, s.threads[u], s)
    ensures ThreadInv(u, s.threads[u], s')
  {
    if Uses(s.threads[u], r) {
      assert u in Users(s.threads, r);
    }
    OtherOwns(s, s', t, r, i, u);
    OtherOn(s, s', t, r, i, u, s.threads[u]);
  }

  lemma OtherOn(s: State, s': State, t: Tid, r: Rid, i: Ino, u: Tid, pcu: Pc)
    requires InodeStep(s, s', t, r, i) && u != t && OnOk(u, pcu, s.inodes)
    ensures OnOk(u, pcu, s'.inodes)
  {
    assert forall j | HoldsInval(pcu, j) :: OnInode(pcu, j);
    assert pcu.On? && pcu.st.InlinePicked? ==> HoldsInval(pcu, pcu.w.i);
    assert pcu.Evict? ==> OnInode(pcu, pcu.ei);
  }

  lemma OtherOwns(s: State, s': State, t: Tid, r: Rid, i: Ino, u: Tid)
    requires RangeStep(s, s', t, r, i)
    requires u in s.threads && u != t && OwnsOk(u, s.threads[u], s.dmaps) && OnOk(u, s.threads[u], s.inodes)
    requires Uses(s.threads[u], r) ==> Users(s.threads, r) != {}
    ensures OwnsOk(u, s.threads[u], s'.dmaps)
  {
  }

  lemma OtherInode(s: State, s': State, t: Tid, r: Rid, i: Ino, j: Ino)
    requires InodeStep(s, s', t, r, i) && RangeStep(s, s', t, r, i) && ThreadStep(s, s', t, r, i)
    requires j in s.inodes && j != i && InodeInv(j, s.inodes[j], s.dmaps, s.threads)
    ensures InodeInv(j, s'.inodes[j], s'.dmaps, s'.threads)
  {
    var pc := At(s.threads, t);
    assert HoldsSem(pc, j) || HoldsInval(pc, j) ==> OnInode(pc, j);
  }

  // The rest is about the range, the inode and the thread themselves.
  lemma StepFrame(s: State, s': State, t: Tid, r: Rid, i: Ino)
    requires Inv(s) && InodeStep(s, s', t, r, i) && RangeStep(s, s', t, r, i) && ThreadStep(s, s', t, r, i)
    requires r in s.dmaps ==> RangeInv(r, s'.dmaps[r], s')
    requires ThreadInv(t, s'.threads[t], s') && InodeInv(i, s'.inodes[i], s'.dmaps, s'.threads) && FcdInv(s')
    ensures Inv(s')
  {
    forall q | q in s.dmaps && q != r ensures RangeInv(q, s'.dmaps[q], s') {
      OtherRange(s, s', t, r, i, q);
    }
    forall u | u in s.threads && u != t ensures ThreadInv(u, s.threads[u], s') {
      OtherThread(s, s', t, r, i, u);
    }
    forall j | j in s.inodes && j != i ensures InodeInv(j, s'.inodes[j], s'.dmaps, s'.threads) {
      OtherInode(s, s', t, r, i, j);
    }
  }
}
