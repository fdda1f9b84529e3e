// The DAX window allocator of dax.c: memory ranges of the window, the inodes whose file ranges they back, and the
// threads that map, reclaim and evict.
//
// A section under fcd->lock, or under an inode's dax->sem with no fcd->lock section inside, is one step of one thread;
// sem is held across steps where fcd->lock sections follow inside.  fuse_dax_break_layouts finds no busy page, so
// invalidate_lock is not dropped while it runs.
module DaxWindow {
  import opened Basics

  type Rid = nat      // a range of the window, number window_offset / FUSE_DAX_SZ
  type Tid = nat
  type Ino = nat

  const FUSE_DAX_SZ: nat := 0x20_0000   // 1 << 21

  datatype Who = Nobody | Thread(id: Tid) {
    predicate Is(t: Tid) { Thread? && id == t }
  }

  // Where a range is (history): on free_ranges, in the tree of an inode under an index, or with one thread;
  // and whether it is on busy_ranges
  datatype Home = Free | Tree(ino: Ino, at: nat, treeBusy: bool) | With(holder: Tid, withBusy: bool) {
    predicate Busy() { (Tree? && treeBusy) || (With? && withBusy) }
    predicate In(i: Ino, x: nat) { Tree? && ino == i && at == x }
    predicate Of(t: Tid) { With? && holder == t }
  }

  datatype Link = NoInode | ToInode(inode: Ino)

  // struct fuse_dax_mapping
  datatype Dmap = Dmap(home: Home, link: Link, start: nat, writable: bool, refcnt: int)

  // struct fuse_inode_dax with the inode's invalidate_lock; once a thread evicts it, igrab no longer succeeds
  datatype Inode = Inode(tree: map<nat, Rid>, nr: int, sem: Who, inval: Who, evictor: Who)

  // struct fuse_conn_dax
  datatype Fcd = Fcd(free: seq<Rid>, nrFree: int, busy: seq<Rid>, nrBusy: int)

  // What fuse_iomap_begin is asked for
  datatype Want = Want(i: Ino, pos: nat, len: nat, write: bool, fault: bool) {
    function Idx(): nat { pos / FUSE_DAX_SZ }
  }

  // The outcome of fuse_fill_iomap: a hole, or len bytes at the range's window offset plus pos % FUSE_DAX_SZ
  datatype Fill = Hole | Filled(from: Rid, len: nat)

  // Inside fuse_iomap_begin
  datatype Stage =
    | Upgrade(upg: Rid)                       // fuse_upgrade_dax_mapping, with the extra reference
    | Seek                                    // alloc_dax_mapping
    | Inline | InlineLocked                   // inode_inline_reclaim_one_dmap before and after invalidate_lock
    | InlinePicked(pick: Rid, at: nat)
    | InlineRemoved(gone: Rid)
    | Have(got: Rid)                          // a range of its own
    | GiveBack(extra: Rid, fill: Fill)
    | Inserted(made: Rid)

  datatype WorkStage = Picked | Locked | Removed(freed: Rid)

  datatype Pc =
    | Idle
    | On(w: Want, st: Stage)
    | Mapped(m: Want, r: Rid, mlen: nat)      // between fuse_iomap_begin and fuse_iomap_end
    | Work(wi: Ino, wx: nat, ws: WorkStage)   // lookup_and_reclaim_dmap
    | Evict(ei: Ino, list: seq<Rid>)          // inode_reclaim_dmap_range

  datatype State = State(dmaps: map<Rid, Dmap>, inodes: map<Ino, Inode>, fcd: Fcd, threads: map<Tid, Pc>)

  function At(ths: map<Tid, Pc>, t: Tid): Pc { if t in ths then ths[t] else Idle }

  // ------------------------------------------------ list operations

  // list_del
  function Remove(s: seq<Rid>, r: Rid): seq<Rid> {
    if s == [] then [] else if s[0] == r then s[1..] else [s[0]] + Remove(s[1..], r)
  }

  function RemoveAll(s: seq<Rid>, rs: seq<Rid>): seq<Rid>
    decreases |rs|
  {
    if rs == [] then s else RemoveAll(Remove(s, rs[0]), rs[1..])
  }

  // ------------------------------------------------ fuse_fill_iomap

  // iomap->length, 0 for a hole
  function FillLen(w: Want, size: nat): nat {
    var len := Min(w.len, FUSE_DAX_SZ - w.pos % FUSE_DAX_SZ);
    var cut := if w.pos + len > size then size - w.pos else len;
    if cut <= 0 then 0 else if w.fault then Align(cut) else cut
  }

  function FillOf(w: Want, r: Rid, size: nat): Fill {
    if FillLen(w, size) > 0 then Filled(r, FillLen(w, size)) else Hole
  }

  function FilledPc(w: Want, f: Fill): Pc { if f.Filled? then Mapped(w, f.from, f.len) else Idle }

  function Inc(d: Dmap, f: Fill): Dmap { if f.Filled? then d.(refcnt := d.refcnt + 1) else d }

  // ------------------------------------------------ steps

  // size: i_size; ok: the request to the daemon, or writing back the pages, succeeds
  datatype Action =
    | Begin(w: Want, size: nat) | UpgradeMapping(size: nat, ok: bool)
    | TakeFree | NoFree | Killed
    | InlineLock | InlinePick(x: nat) | InlineNone | BreakFailed | InlineTake(ok: bool) | InlineUnbusy
    | SetUp(size: nat, ok: bool) | Return | Publish(size: nat)
    | End
    | WorkPick(r: Rid) | WorkLock | WorkTake(ok: bool) | WorkFree
    | EvictTree(i: Ino, list: seq<Rid>) | EvictFree | NewInode(i: Ino)

  predicate Unlocked(s: State, i: Ino) { i in s.inodes && s.inodes[i].sem.Nobody? }

  predicate Idleable(d: Dmap) { d.refcnt <= 1 }

  predicate OnInode(pc: Pc, i: Ino) {
    (pc.On? && pc.w.i == i) || (pc.Mapped? && pc.m.i == i) || (pc.Work? && pc.wi == i) || (pc.Evict? && pc.ei == i)
  }

  // Whether thread t, at stage st of a mapping w or at pc, can take step a
  predicate StageCan(s: State, w: Want, st: Stage, a: Action) {
    match a
    case UpgradeMapping(_, _) => st.Upgrade? && Unlocked(s, w.i)
    case TakeFree => st.Seek? && s.fcd.free != [] && s.fcd.free[0] in s.dmaps
    case NoFree => st.Seek? && s.fcd.free == []
    case Killed => st.Seek? && !w.fault
    case InlineLock => st.Inline? && w.i in s.inodes && s.inodes[w.i].inval.Nobody?
    case InlinePick(x) =>
      st.InlineLocked? && Unlocked(s, w.i) && x in s.inodes[w.i].tree && s.inodes[w.i].tree[x] in s.dmaps &&
      Idleable(s.dmaps[s.inodes[w.i].tree[x]])
    case InlineNone => st.InlineLocked? && Unlocked(s, w.i)
    case BreakFailed => st.InlinePicked? && w.i in s.inodes
    case InlineTake(_) => st.InlinePicked? && Unlocked(s, w.i)
    case InlineUnbusy => st.InlineRemoved? && st.gone in s.dmaps && w.i in s.inodes
    case SetUp(_, _) => st.Have? && Unlocked(s, w.i) && st.got in s.dmaps
    case Return => st.GiveBack? && st.extra in s.dmaps && w.i in s.inodes
    case Publish(_) => st.Inserted? && st.made in s.dmaps && w.i in s.inodes
    case _ => false
  }

  predicate WorkCan(s: State, i: Ino, ws: WorkStage, a: Action) {
    match a
    case WorkLock => ws.Picked? && i in s.inodes && s.inodes[i].inval.Nobody?
    case WorkTake(_) => ws.Locked? && Unlocked(s, i)
    case BreakFailed => ws.Locked? && i in s.inodes
    case WorkFree => ws.Removed? && ws.freed in s.dmaps && i in s.inodes
    case _ => false
  }

  ghost predicate IdleCan(s: State, a: Action) {
    match a
    case Begin(w, _) => Unlocked(s, w.i) && s.inodes[w.i].evictor.Nobody? && (w.fault ==> w.pos % PAGE_SIZE == 0)
    case WorkPick(r) =>
      r in s.fcd.busy && r in s.dmaps && Idleable(s.dmaps[r]) && s.dmaps[r].link.ToInode? &&
      s.dmaps[r].link.inode in s.inodes && s.inodes[s.dmaps[r].link.inode].evictor.Nobody?
    case EvictTree(i, list) =>
      && Unlocked(s, i) && Distinct(list) && (forall u | u in s.threads :: !OnInode(s.threads[u], i))
      && (forall r: Rid :: r in list <==> r in s.inodes[i].tree.Values)
      && (forall r | r in list :: r in s.dmaps) && |list| == |s.inodes[i].tree|
    case NewInode(i) => i !in s.inodes
    case _ => false
  }

  ghost predicate Can(s: State, t: Tid, a: Action) {
    var pc := At(s.threads, t);
    if pc.Idle? then IdleCan(s, a)
    else if pc.On? then StageCan(s, pc.w, pc.st, a)
    else if pc.Mapped? then a.End? && pc.r in s.dmaps
    else if pc.Work? then WorkCan(s, pc.wi, pc.ws, a)
    else a.EvictFree? && (forall r | r in pc.list :: r in s.dmaps)
  }

  // ------------------------------------------------ what the steps do

  function SetPc(s: State, t: Tid, pc: Pc): State { s.(threads := s.threads[t := pc]) }

  function SetDmap(s: State, r: Rid, d: Dmap): State { s.(dmaps := s.dmaps[r := d]) }

  function SetInode(s: State, i: Ino, n: Inode): State { s.(inodes := s.inodes[i := n]) }

  // fuse_iomap_begin, 588-632
  function BeginDo(s: State, t: Tid, w: Want, size: nat): State
    requires w.i in s.inodes
  {
    var tree, x := s.inodes[w.i].tree, w.Idx();
    if x in tree && tree[x] in s.dmaps then
      var r := tree[x];
      var d := s.dmaps[r];
      if w.write && !d.writable then SetPc(SetDmap(s, r, d.(refcnt := d.refcnt + 1)), t, On(w, Upgrade(r)))
      else var f := FillOf(w, r, size); SetPc(SetDmap(s, r, Inc(d, f)), t, FilledPc(w, f))
    else SetPc(s, t, if w.pos >= size then Idle else On(w, Seek))
  }

  // fuse_upgrade_dax_mapping, 513-555
  function UpgradeDo(s: State, t: Tid, w: Want, size: nat, ok: bool): State
    requires w.i in s.inodes
  {
    var tree, x := s.inodes[w.i].tree, w.Idx();
    if x in tree && tree[x] in s.dmaps then
      var r := tree[x];
      var d := s.dmaps[r].(refcnt := s.dmaps[r].refcnt - 1);
      if !d.writable && !ok then SetPc(SetDmap(s, r, d), t, Idle)
      else
        var f := FillOf(w, r, size);
        SetPc(SetDmap(s, r, Inc(d.(writable := true), f)), t, FilledPc(w, f))
    else SetPc(s, t, Idle)
  }

  // alloc_dax_mapping, 129-145
  function TakeFreeDo(s: State, t: Tid, w: Want): State
    requires s.fcd.free != [] && s.fcd.free[0] in s.dmaps
  {
    var r := s.fcd.free[0];
    SetPc(SetDmap(s, r, s.dmaps[r].(home := With(t, false))), t, On(w, Have(r)))
      .(fcd := s.fcd.(free := s.fcd.free[1..], nrFree := s.fcd.nrFree - 1))
  }

  // Dropping invalidate_lock of inode i
  function Unlock(n: Inode): Inode { n.(inval := Nobody) }

  // reclaim_one_dmap_locked, 905-918: r leaves the tree; sem stays held
  function TakeOut(s: State, t: Tid, i: Ino, x: nat, r: Rid): State
    requires i in s.inodes && r in s.dmaps
  {
    var n := s.inodes[i];
    SetInode(SetDmap(s, r, s.dmaps[r].(home := With(t, true))), i,
             n.(tree := n.tree - {x}, nr := n.nr - 1, sem := Thread(t)))
  }

  // inode_inline_reclaim_one_dmap, 984-1006.  The first branch is the source's 987-991: it keeps the stale range.
  function InlineTakeDo(s: State, t: Tid, w: Want, pick: Rid, x: nat, ok: bool): State
    requires w.i in s.inodes
  {
    var n := s.inodes[w.i];
    if !(x in n.tree && n.tree[x] in s.dmaps) then SetPc(SetInode(s, w.i, Unlock(n)), t, On(w, Have(pick)))
    else if !Idleable(s.dmaps[n.tree[x]]) then SetPc(SetInode(s, w.i, Unlock(n)), t, On(w, Seek))
    else if !ok then SetPc(SetInode(s, w.i, Unlock(n)), t, Idle)
    else SetPc(TakeOut(s, t, w.i, x, n.tree[x]), t, On(w, InlineRemoved(n.tree[x])))
  }

  // The range leaves busy_ranges and forgets its inode.
  function Unlinked(d: Dmap, home: Home): Dmap { d.(home := home, link := NoInode, start := 0) }

  // ... 1009-1020
  function InlineUnbusyDo(s: State, t: Tid, w: Want, r: Rid): State
    requires r in s.dmaps && w.i in s.inodes
  {
    SetPc(SetInode(SetDmap(s, r, Unlinked(s.dmaps[r], With(t, false))), w.i,
                   s.inodes[w.i].(sem := Nobody, inval := Nobody)),
          t, On(w, Have(r)))
      .(fcd := s.fcd.(busy := Remove(s.fcd.busy, r), nrBusy := s.fcd.nrBusy - 1))
  }

  // fuse_setup_new_dax_mapping, 472-493, with fuse_setup_one_mapping, 200-223
  function SetUpDo(s: State, t: Tid, w: Want, r: Rid, size: nat, ok: bool): State
    requires w.i in s.inodes && r in s.dmaps
  {
    var n, x := s.inodes[w.i], w.Idx();
    var locked := n.(sem := Thread(t));
    if x in n.tree && n.tree[x] in s.dmaps then
      var f := FillOf(w, n.tree[x], size);
      SetPc(SetInode(SetDmap(s, n.tree[x], Inc(s.dmaps[n.tree[x]], f)), w.i, locked), t, On(w, GiveBack(r, f)))
    else if !ok then SetPc(SetInode(s, w.i, locked), t, On(w, GiveBack(r, Hole)))
    else
      SetPc(SetInode(SetDmap(s, r, s.dmaps[r].(home := Tree(w.i, x, false), link := ToInode(w.i), start := x,
                                               writable := w.write)),
                     w.i, locked.(tree := n.tree[x := r], nr := n.nr + 1)),
            t, On(w, Inserted(r)))
  }

  // dmap_add_to_free_pool and up_write
  function ReturnDo(s: State, t: Tid, w: Want, r: Rid, f: Fill): State
    requires r in s.dmaps && w.i in s.inodes
  {
    SetPc(SetInode(SetDmap(s, r, s.dmaps[r].(home := Free)), w.i, s.inodes[w.i].(sem := Nobody)), t, FilledPc(w, f))
      .(fcd := s.fcd.(free := s.fcd.free + [r], nrFree := s.fcd.nrFree + 1))
  }

  // The end of fuse_setup_one_mapping, 225-228, then fuse_fill_iomap and up_write
  function PublishDo(s: State, t: Tid, w: Want, r: Rid, size: nat): State
    requires r in s.dmaps && w.i in s.inodes
  {
    var f := FillOf(w, r, size);
    SetPc(SetInode(SetDmap(s, r, Inc(s.dmaps[r].(home := Tree(w.i, w.Idx(), true)), f)), w.i,
                   s.inodes[w.i].(sem := Nobody)),
          t, FilledPc(w, f))
      .(fcd := s.fcd.(busy := s.fcd.busy + [r], nrBusy := s.fcd.nrBusy + 1))
  }

  function StageDo(s: State, t: Tid, w: Want, st: Stage, a: Action): State
    requires StageCan(s, w, st, a)
  {
    match a
    case UpgradeMapping(size, ok) => UpgradeDo(s, t, w, size, ok)
    case TakeFree => TakeFreeDo(s, t, w)
    case NoFree => SetPc(s, t, if w.fault then Idle else On(w, Inline))
    case Killed => SetPc(s, t, Idle)
    case InlineLock => SetPc(SetInode(s, w.i, s.inodes[w.i].(inval := Thread(t))), t, On(w, InlineLocked))
    case InlinePick(x) => SetPc(s, t, On(w, InlinePicked(s.inodes[w.i].tree[x], x)))
    case InlineNone => SetPc(SetInode(s, w.i, Unlock(s.inodes[w.i])), t, On(w, Seek))
    case BreakFailed => SetPc(SetInode(s, w.i, Unlock(s.inodes[w.i])), t, Idle)
    case InlineTake(ok) => InlineTakeDo(s, t, w, st.pick, st.at, ok)
    case InlineUnbusy => InlineUnbusyDo(s, t, w, st.gone)
    case SetUp(size, ok) => SetUpDo(s, t, w, st.got, size, ok)
    case Return => ReturnDo(s, t, w, st.extra, st.fill)
    case Publish(size) => PublishDo(s, t, w, st.made, size)
  }

  // lookup_and_reclaim_dmap_locked, 1080-1094
  function WorkTakeDo(s: State, t: Tid, i: Ino, x: nat, ok: bool): State
    requires i in s.inodes
  {
    var n := s.inodes[i];
    if !(x in n.tree && n.tree[x] in s.dmaps) || !Idleable(s.dmaps[n.tree[x]]) || !ok
      then SetPc(SetInode(s, i, Unlock(n)), t, Idle)
    else SetPc(TakeOut(s, t, i, x, n.tree[x]), t, Work(i, x, Removed(n.tree[x])))
  }

  // dmap_reinit_add_to_free_pool and the unlocking
  function WorkFreeDo(s: State, t: Tid, i: Ino, r: Rid): State
    requires r in s.dmaps && i in s.inodes
  {
    SetPc(SetInode(SetDmap(s, r, Unlinked(s.dmaps[r], Free)), i, s.inodes[i].(sem := Nobody, inval := Nobody)), t, Idle)
      .(fcd := Fcd(s.fcd.free + [r], s.fcd.nrFree + 1, Remove(s.fcd.busy, r), s.fcd.nrBusy - 1))
  }

  function WorkDo(s: State, t: Tid, i: Ino, x: nat, ws: WorkStage, a: Action): State
    requires WorkCan(s, i, ws, a)
  {
    match a
    case WorkLock => SetPc(SetInode(s, i, s.inodes[i].(inval := Thread(t))), t, Work(i, x, Locked))
    case WorkTake(ok) => WorkTakeDo(s, t, i, x, ok)
    case BreakFailed => SetPc(SetInode(s, i, Unlock(s.inodes[i])), t, Idle)
    case WorkFree => WorkFreeDo(s, t, i, ws.freed)
  }

  // inode_reclaim_dmap_range, 321-339: the tree is emptied onto a private list
  function EvictTreeDo(s: State, t: Tid, i: Ino, list: seq<Rid>): State
    requires i in s.inodes
  {
    State(map r | r in s.dmaps :: if r in list then s.dmaps[r].(home := With(t, true)) else s.dmaps[r],
          s.inodes[i := s.inodes[i].(tree := map[], nr := s.inodes[i].nr - |list|, evictor := Thread(t))],
          s.fcd, s.threads[t := Evict(i, list)])
  }

  // ... 345-350; then the inode is freed
  function EvictFreeDo(s: State, t: Tid, i: Ino, list: seq<Rid>): State {
    State(map r | r in s.dmaps :: if r in list then Unlinked(s.dmaps[r], Free) else s.dmaps[r],
          s.inodes - {i},
          Fcd(s.fcd.free + list, s.fcd.nrFree + |list|, RemoveAll(s.fcd.busy, list), s.fcd.nrBusy - |list|),
          s.threads[t := Idle])
  }

  // try_to_free_dmap_chunks, 1150-1181
  function WorkPickDo(s: State, t: Tid, r: Rid): State
    requires r in s.dmaps && s.dmaps[r].link.ToInode?
  {
    SetPc(s, t, Work(s.dmaps[r].link.inode, s.dmaps[r].start, Picked))
      .(fcd := s.fcd.(busy := Remove(s.fcd.busy, r) + [r]))
  }

  function IdleDo(s: State, t: Tid, a: Action): State
    requires match a case Begin(w, _) => w.i in s.inodes case WorkPick(r) => r in s.dmaps && s.dmaps[r].link.ToInode?
             case EvictTree(i, _) => i in s.inodes case NewInode(i) => true case _ => false
  {
    match a
    case Begin(w, size) => BeginDo(s, t, w, size)
    case WorkPick(r) => WorkPickDo(s, t, r)
    case EvictTree(i, list) => EvictTreeDo(s, t, i, list)
    case NewInode(i) => SetInode(s, i, Inode(map[], 0, Nobody, Nobody, Nobody))
  }

  ghost function Next(s: State, t: Tid, a: Action): State
    requires Can(s, t, a)
  {
    var pc := At(s.threads, t);
    if pc.Idle? then IdleDo(s, t, a)
    else if pc.On? then StageDo(s, t, pc.w, pc.st, a)
    else if pc.Mapped? then SetPc(SetDmap(s, pc.r, s.dmaps[pc.r].(refcnt := s.dmaps[pc.r].refcnt - 1)), t, Idle)
    else if pc.Work? then WorkDo(s, t, pc.wi, pc.wx, pc.ws, a)
    else EvictFreeDo(s, t, pc.ei, pc.list)
  }

  // fuse_dax_mem_range_init: n ranges, all free
  ghost predicate Init(s: State, n: nat) {
    && s.fcd == Fcd(seq(n, k => k), n, [], 0) && s.inodes == map[] && s.threads == map[]
    && (forall r: Rid :: r in s.dmaps <==> r < n)
    && (forall r | r in s.dmaps :: s.dmaps[r] == Dmap(Free, NoInode, 0, false, 1))
  }
}
