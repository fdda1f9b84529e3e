// Writeback of one inode as an interleaving of its sections, and what holds in every state of every run.
module WritebackRuns {
  import opened Basics
  import opened Counting
  import opened WritebackTree
  import opened Writeback
  import opened WritebackInvariant
  import opened WritebackKeeps

  const INT_MAX: int := 0x7FFF_FFFF

  // The lock of a page.  clear: its owner has found the page not to be under writeback.
  datatype PageLock = PageLock(owner: Tid, clear: bool)

  // Whether a thread is in fuse_set_nowrite, or has returned from it and not yet released
  datatype Nowrite = Allowed | Draining(drainer: Tid) | Forbidden(holder: Tid)

  datatype Limits = Limits(maxPages: nat, maxWrite: nat)

  // cur: the request that a fuse_writepages thread is filling, data->wpa
  datatype State = State(wb: Core, locks: map<nat, PageLock>, cur: map<Tid, nat>, nowrite: Nowrite, fc: Limits)

  datatype Step =
    | LockPage(t: Tid, p: nat) | CheckPage(t: Tid, p: nat) | UnlockPage(t: Tid, p: nat)
    | GrowReq(t: Tid, p: nat) | AddFresh(t: Tid, p: nat) | AddToChain(t: Tid, p: nat, r: nat)
    | WritePage(t: Tid, p: nat, crop: nat, broken: set<nat>)
    | SendBuilt(t: Tid, crop: nat, broken: set<nat>)
    | EndWrite(r: nat, isize: nat, broken: set<nat>)
    | SetNowrite(t: Tid) | Drained(t: Tid) | ReleaseNowrite(t: Tid, crop: nat, broken: set<nat>)
    | Rotated(rotations: seq<Rotation>)

  predicate Locks(s: State, t: Tid, p: nat) { p in s.locks && s.locks[p].owner == t }

  predicate LocksClear(s: State, t: Tid, p: nat) { Locks(s, t, p) && s.locks[p].clear }

  // Every condition of fuse_writepage_need_send but the failed allocation says no; the page was found clear before.
  predicate RoomFor(s: State, r: nat, p: nat)
    requires r in s.wb.reqs
  {
    var n := |s.wb.reqs[r].snaps|;
    n != s.fc.maxPages && (n + 1) * PAGE_SIZE <= s.fc.maxWrite && r + n == p
  }

  ghost predicate Guard(s: State, a: Step) {
    match a
    case LockPage(t, p) => p !in s.locks
    case CheckPage(t, p) => Locks(s, t, p) && !Covered(s.wb.reqs, p)
    case UnlockPage(t, p) => Locks(s, t, p)
    case GrowReq(t, p) => LocksClear(s, t, p) && t in s.cur && s.cur[t] in s.wb.reqs && RoomFor(s, s.cur[t], p)
    case AddFresh(t, p) => Locks(s, t, p) && t !in s.cur && !Covered(s.wb.reqs, p)
    case AddToChain(t, p, r) => Locks(s, t, p) && t !in s.cur && r in s.wb.reqs && Covers(r, s.wb.reqs[r], p)
    case WritePage(t, p, _, _) => LocksClear(s, t, p)
    case SendBuilt(t, _, _) => t in s.cur && s.cur[t] in s.wb.reqs
    case EndWrite(r, _, _) => r in s.wb.reqs && s.wb.reqs[r].stage.Sent?
    case SetNowrite(t) => s.nowrite.Allowed?
    case Drained(t) => s.nowrite == Draining(t) && s.wb.writectr == FUSE_NOWRITE
    case ReleaseNowrite(t, _, _) => s.nowrite == Forbidden(t)
    case Rotated(_) => true
  }

  function Unclear(s: State, t: Tid, p: nat): map<nat, PageLock> { s.locks[p := PageLock(t, false)] }

  ghost function Next(s: State, a: Step): State
    requires Guard(s, a)
  {
    match a
    case LockPage(t, p) => s.(locks := Unclear(s, t, p))
    case CheckPage(t, p) => s.(locks := s.locks[p := PageLock(t, true)])
    case UnlockPage(t, p) => s.(locks := s.locks - {p})
    case GrowReq(t, p) => s.(wb := Grow(s.wb, s.cur[t], p), locks := Unclear(s, t, p))
    case AddFresh(t, p) => s.(wb := AddNew(s.wb, p, Building(t)), locks := Unclear(s, t, p), cur := s.cur[t := p])
    case AddToChain(t, p, r) => s.(wb := AddAux(s.wb, r, p), locks := Unclear(s, t, p))
    case WritePage(t, p, crop, broken) =>
      s.(wb := Flush(Enqueue(AddNew(s.wb, p, Queued), p), crop, broken), locks := Unclear(s, t, p))
    case SendBuilt(t, crop, broken) =>
      s.(wb := Flush(Enqueue(s.wb, s.cur[t]), crop, broken), cur := s.cur - {t})
    case EndWrite(r, isize, broken) => s.(wb := End(s.wb, r, isize, broken))
    case SetNowrite(t) => s.(wb := s.wb.(writectr := s.wb.writectr + FUSE_NOWRITE), nowrite := Draining(t))
    case Drained(t) => s.(nowrite := Forbidden(t))
    case ReleaseNowrite(t, crop, broken) => s.(wb := Flush(s.wb.(writectr := 0), crop, broken), nowrite := Allowed)
    case Rotated(rotations) => s.(wb := s.wb.(tree := Rebalance(s.wb.tree, rotations)))
  }

  // writectr is a 32-bit int: an inode has at most INT_MAX requests.
  ghost predicate Can(s: State, a: Step) { Guard(s, a) && |Next(s, a).wb.reqs| <= INT_MAX }

  ghost predicate Init(s: State) {
    && s.wb.tree == Leaf && s.wb.reqs == map[] && s.wb.queue == [] && s.wb.writectr == 0
    && (forall p :: s.wb.hist(p) == PageHist(0, [], 0, 0))
    && s.locks == map[] && s.cur == map[] && s.nowrite.Allowed? && s.fc.maxPages >= 1 && s.fc.maxWrite >= PAGE_SIZE
  }

  // ------------------------------------------------ the invariant

  function Bias(n: Nowrite): int { if n.Allowed? then 0 else FUSE_NOWRITE }

  // A page found clear stays clear while its lock is held.
  ghost predicate ClearOk(locks: map<nat, PageLock>, reqs: map<nat, Wpa>) {
    forall p | p in locks && locks[p].clear :: !Covered(reqs, p)
  }

  // The requests being filled, and those who fill them
  ghost predicate CurOk(cur: map<Tid, nat>, reqs: map<nat, Wpa>) {
    && (forall t | t in cur :: cur[t] in reqs && reqs[cur[t]].stage.Building? && reqs[cur[t]].stage.builder == t)
    && (forall r | r in reqs && reqs[r].stage.Building? ::
        reqs[r].stage.builder in cur && cur[reqs[r].stage.builder] == r)
  }

  ghost predicate SizeOk(reqs: map<nat, Wpa>, fc: Limits) {
    fc.maxPages >= 1 && fc.maxWrite >= PAGE_SIZE &&
    forall r | r in reqs :: |reqs[r].snaps| <= fc.maxPages && |reqs[r].snaps| * PAGE_SIZE <= fc.maxWrite
  }

  ghost predicate NowriteOk(s: State) {
    && |s.wb.reqs| <= INT_MAX
    && (s.nowrite.Allowed? ==> s.wb.queue == [])
    && (s.nowrite.Forbidden? ==> s.wb.writectr == FUSE_NOWRITE)
  }

  ghost predicate ThreadsOk(s: State) {
    ClearOk(s.locks, s.wb.reqs) && CurOk(s.cur, s.wb.reqs) && SizeOk(s.wb.reqs, s.fc)
  }

  ghost predicate Inv(s: State) { CoreInv(s.wb, [], {}, Bias(s.nowrite)) && ThreadsOk(s) && NowriteOk(s) }

  // ------------------------------------------------ sending and ending, as seen by the threads that collect pages

  // No page becomes covered, no request being filled is touched, none grows.
  ghost predicate Within(reqs: map<nat, Wpa>, reqs': map<nat, Wpa>) {
    && (forall p | Covered(reqs', p) :: Covered(reqs, p))
    && (forall r | r in reqs && reqs[r].stage.Building? :: r in reqs' && reqs'[r].stage == reqs[r].stage)
    && (forall r | r in reqs' && reqs'[r].stage.Building? :: r in reqs && reqs'[r].stage == reqs[r].stage)
    && (forall r | r in reqs' :: |reqs'[r].snaps| == 1 || (r in reqs && |reqs'[r].snaps| == |reqs[r].snaps|))
  }

  lemma ErasedWithin(reqs: map<nat, Wpa>, c: map<nat, Wpa>, r: nat)
    requires Within(reqs, c) && r in c && !c[r].stage.Building?
    ensures Within(reqs, c - {r})
  {
    forall p | Covered(c - {r}, p) ensures Covered(c, p) {
      var x :| x in c - {r} && Covers(x, (c - {r})[x], p);
      assert Covers(x, c[x], p);
    }
  }

  lemma SendWithin(reqs: map<nat, Wpa>, c: Core, r: nat, crop: nat, isize: nat, broken: bool)
    requires Within(reqs, c.reqs) && r in c.reqs && !c.reqs[r].stage.Building?
    ensures Within(reqs, Send(c, r, crop, isize, broken).reqs)
  {
    var w := c.reqs[r];
    var size := Cropped(r, |w.snaps|, crop);
    ErasedWithin(reqs, c.reqs, r);
    forall p ensures Covered(c.reqs[r := w.(stage := Sent(size))], p) == Covered(c.reqs, p) {
      SameCover(c.reqs, r, w.(stage := Sent(size)), p);
    }
  }

  lemma {:induction false} FlushWithin(reqs: map<nat, Wpa>, c: Core, crop: nat, broken: set<nat>)
    requires Within(reqs, c.reqs) && QueueOk(c)
    ensures Within(reqs, Flush(c, crop, broken).reqs)
    decreases |c.queue|
  {
    if c.writectr >= 0 && c.queue != [] {
      SendWithin(reqs, Pop(c), c.queue[0], crop, crop, c.queue[0] in broken);
      FlushWithin(reqs, Send(Pop(c), c.queue[0], crop, crop, c.queue[0] in broken), crop, broken);
    }
  }

  lemma {:induction false} ResendWithin(reqs: map<nat, Wpa>, c: Core, next: seq<Aux>, crop: nat, isize: nat,
                                        broken: set<nat>)
    requires Within(reqs, c.reqs)
      && forall i | 0 <= i < |next| :: Covered(reqs, next[i].page) && next[i].page !in c.reqs
    requires DistinctPages(next)
    ensures Within(reqs, Resend(c, next, crop, isize, broken).reqs)
    decreases |next|
  {
    if next != [] {
      var a, c' := next[0], Insert(c, next[0].page, next[0].snap, Queued);
      forall p ensures Covered(c'.reqs, p) <==> Covered(c.reqs, p) || p == a.page {
        InsertedCover(c.reqs, a.page, Wpa([a.snap], [], Queued), p);
      }
      SendWithin(reqs, c', a.page, crop, isize, a.page in broken);
      ResendWithin(reqs, Send(c', a.page, crop, isize, a.page in broken), next[1..], crop, isize, broken);
    }
  }

  lemma EndWithin(c: Core, r: nat, isize: nat, broken: set<nat>)
    requires r in c.reqs && c.reqs[r].stage.Sent? && Disjoint(c.reqs) && ChainOk(r, c.reqs[r])
    ensures Within(c.reqs, End(c, r, isize, broken).reqs)
  {
    var w := c.reqs[r];
    ErasedWithin(c.reqs, c.reqs, r);
    forall i | 0 <= i < |w.next| ensures Covered(c.reqs, w.next[i].page) && w.next[i].page !in c.reqs - {r} {
      NextFree(c, r, i);
      assert Covers(r, w, w.next[i].page);
    }
    ResendWithin(c.reqs, Unlinked(c, r), w.next, r * PAGE_SIZE + w.stage.size, isize, broken);
  }

  lemma WithinKeeps(s: State, reqs': map<nat, Wpa>)
    requires ThreadsOk(s) && Within(s.wb.reqs, reqs')
    ensures ClearOk(s.locks, reqs') && CurOk(s.cur, reqs') && SizeOk(reqs', s.fc)
  {
  }

  // ------------------------------------------------ every step keeps the invariant

  lemma GrowThreads(s: State, t: Tid, p: nat)
    requires ThreadsOk(s) && Guard(s, GrowReq(t, p)) && Disjoint(s.wb.reqs) && !Covered(s.wb.reqs, p)
    ensures ThreadsOk(Next(s, GrowReq(t, p)))
  {
    GrowDisjoint(s.wb.reqs, s.cur[t], Grow(s.wb, s.cur[t], p).reqs[s.cur[t]], p);
    assert forall r | r in s.wb.reqs && r != s.cur[t] :: Grow(s.wb, s.cur[t], p).reqs[r] == s.wb.reqs[r];
  }

  lemma AddFreshThreads(s: State, t: Tid, p: nat)
    requires ThreadsOk(s) && Guard(s, AddFresh(t, p)) && p !in s.wb.reqs
    ensures ThreadsOk(Next(s, AddFresh(t, p)))
  {
    var s' := Next(s, AddFresh(t, p));
    forall x ensures Covered(s'.wb.reqs, x) <==> Covered(s.wb.reqs, x) || x == p {
      InsertedCover(s.wb.reqs, p, s'.wb.reqs[p], x);
    }
  }

  lemma ChainThreads(s: State, t: Tid, p: nat, r: nat)
    requires ThreadsOk(s) && Guard(s, AddToChain(t, p, r))
    ensures ThreadsOk(Next(s, AddToChain(t, p, r)))
  {
    var s' := Next(s, AddToChain(t, p, r));
    forall x ensures Covered(s'.wb.reqs, x) == Covered(s.wb.reqs, x) {
      SameCover(s.wb.reqs, r, s'.wb.reqs[r], x);
    }
  }

  // fuse_writepage_locked up to the flush
  function Prepared(s: State, t: Tid, p: nat): State {
    s.(wb := Enqueue(AddNew(s.wb, p, Queued), p), locks := Unclear(s, t, p))
  }

  lemma PreparedThreads(s: State, t: Tid, p: nat)
    requires ThreadsOk(s) && p !in s.wb.reqs
    ensures ThreadsOk(Prepared(s, t, p))
  {
    var s' := Prepared(s, t, p);
    assert s'.wb.reqs == s.wb.reqs[p := s'.wb.reqs[p]];
    forall x ensures Covered(s'.wb.reqs, x) <==> Covered(s.wb.reqs, x) || x == p {
      InsertedCover(s.wb.reqs, p, s'.wb.reqs[p], x);
    }
  }

  // fuse_writepages_send up to the flush
  function Handed(s: State, t: Tid): State
    requires t in s.cur && s.cur[t] in s.wb.reqs
  {
    s.(wb := Enqueue(s.wb, s.cur[t]), cur := s.cur - {t})
  }

  lemma HandedThreads(s: State, t: Tid)
    requires ThreadsOk(s) && t in s.cur && s.cur[t] in s.wb.reqs
    ensures ThreadsOk(Handed(s, t))
  {
    var s' := Handed(s, t);
    forall x ensures Covered(s'.wb.reqs, x) == Covered(s.wb.reqs, x) {
      SameCover(s.wb.reqs, s.cur[t], s'.wb.reqs[s.cur[t]], x);
    }
  }

  // The flush at the end of a section ...
  lemma FlushedThreads(s: State, crop: nat, broken: set<nat>)
    requires ThreadsOk(s) && QueueOk(s.wb)
    ensures ThreadsOk(s.(wb := Flush(s.wb, crop, broken)))
  {
    FlushWithin(s.wb.reqs, s.wb, crop, broken);
    WithinKeeps(s, Flush(s.wb, crop, broken).reqs);
  }

  // ... leaves the list empty unless writes are blocked.
  lemma FlushedQueue(c: Core, crop: nat, broken: set<nat>, n: Nowrite)
    requires ListsOk(c, {}, Bias(n)) && (n.Forbidden? ==> c.writectr == FUSE_NOWRITE)
    ensures var c' := Flush(c, crop, broken);
            (n.Allowed? ==> c'.queue == []) && (n.Forbidden? ==> c'.writectr == FUSE_NOWRITE)
  {
    FlushLists(c, crop, broken, Bias(n));
  }

  lemma PreparedCore(c: Core, p: nat, extra: int)
    requires CoreInv(c, [], {}, extra) && !Covered(c.reqs, p)
    ensures p !in c.reqs && CoreInv(Enqueue(AddNew(c, p, Queued), p), [], {}, extra)
  {
    AddNewKeeps(c, p, Queued, extra);
    EnqueueKeeps(AddNew(c, p, Queued), p, {p}, extra);
  }

  // A section that ends with a flush, from the state s just before it
  lemma FlushedKeeps(s: State, crop: nat, broken: set<nat>, s': State)
    requires CoreInv(s.wb, [], {}, Bias(s.nowrite)) && ThreadsOk(s)
      && (s.nowrite.Forbidden? ==> s.wb.writectr == FUSE_NOWRITE)
    requires s' == s.(wb := Flush(s.wb, crop, broken)) && |s'.wb.reqs| <= INT_MAX
    ensures Inv(s')
  {
    FlushKeeps(s.wb, crop, broken, Bias(s.nowrite));
    FlushedThreads(s, crop, broken);
    FlushedQueue(s.wb, crop, broken, s.nowrite);
  }

  lemma WritePageMeans(s: State, t: Tid, p: nat, crop: nat, broken: set<nat>)
    requires ThreadsOk(s) && Guard(s, WritePage(t, p, crop, broken))
    ensures Next(s, WritePage(t, p, crop, broken)) ==
      Prepared(s, t, p).(wb := Flush(Prepared(s, t, p).wb, crop, broken))
    ensures !Covered(s.wb.reqs, p)
  {
  }

  lemma WritePageKeeps(s: State, t: Tid, p: nat, crop: nat, broken: set<nat>, s': State)
    requires Inv(s) && !Covered(s.wb.reqs, p) && |s'.wb.reqs| <= INT_MAX
    requires s' == Prepared(s, t, p).(wb := Flush(Prepared(s, t, p).wb, crop, broken))
    ensures Inv(s')
  {
    PreparedCore(s.wb, p, Bias(s.nowrite));
    PreparedThreads(s, t, p);
    FlushedKeeps(Prepared(s, t, p), crop, broken, s');
  }

  lemma SendBuiltMeans(s: State, t: Tid, crop: nat, broken: set<nat>)
    requires Guard(s, SendBuilt(t, crop, broken))
    ensures Next(s, SendBuilt(t, crop, broken)) == Handed(s, t).(wb := Flush(Handed(s, t).wb, crop, broken))
  {
  }

  lemma SendBuiltKeeps(s: State, t: Tid, crop: nat, broken: set<nat>, s': State)
    requires Inv(s) && t in s.cur && s.cur[t] in s.wb.reqs && |s'.wb.reqs| <= INT_MAX
    requires s' == Handed(s, t).(wb := Flush(Handed(s, t).wb, crop, broken))
    ensures Inv(s')
  {
    EnqueueKeeps(s.wb, s.cur[t], {}, Bias(s.nowrite));
    HandedThreads(s, t);
    FlushedKeeps(Handed(s, t), crop, broken, s');
  }

  // fuse_release_nowrite up to the flush
  function Released(s: State): State { s.(wb := s.wb.(writectr := 0), nowrite := Allowed) }

  lemma ReleaseMeans(s: State, t: Tid, crop: nat, broken: set<nat>)
    requires Guard(s, ReleaseNowrite(t, crop, broken))
    ensures Next(s, ReleaseNowrite(t, crop, broken)) == Released(s).(wb := Flush(Released(s).wb, crop, broken))
  {
  }

  lemma ReleaseKeeps(s: State, crop: nat, broken: set<nat>, s': State)
    requires Inv(s) && s.nowrite.Forbidden? && |s'.wb.reqs| <= INT_MAX
    requires s' == Released(s).(wb := Flush(Released(s).wb, crop, broken))
    ensures Inv(s')
  {
    RebiasKeeps(s.wb, Released(s).wb, -FUSE_NOWRITE, FUSE_NOWRITE);
    FlushedKeeps(Released(s), crop, broken, s');
  }

  // The tree may be rebalanced at any time.
  lemma RotatedKeeps(s: State, rotations: seq<Rotation>, c: Core)
    requires Inv(s) && c == s.wb.(tree := Rebalance(s.wb.tree, rotations))
    ensures Inv(s.(wb := c))
  {
    RebalanceKeeps(s.wb.tree, rotations);
    TreeParts(s.wb, c);
    RebiasLists(s.wb, c, 0, Bias(s.nowrite));
  }

  lemma TreeParts(c: Core, c': Core)
    requires PartsOk(c, []) && c'.reqs == c.reqs && c'.hist == c.hist && TreeOk(c')
    ensures PartsOk(c', [])
  {
  }

  lemma EndThreads(s: State, r: nat, isize: nat, broken: set<nat>)
    requires ThreadsOk(s) && Guard(s, EndWrite(r, isize, broken)) && Disjoint(s.wb.reqs) && ChainOk(r, s.wb.reqs[r])
    ensures ThreadsOk(Next(s, EndWrite(r, isize, broken)))
  {
    EndWithin(s.wb, r, isize, broken);
    WithinKeeps(s, End(s.wb, r, isize, broken).reqs);
  }

  lemma EndWriteKeeps(s: State, r: nat, isize: nat, broken: set<nat>)
    requires Inv(s) && Can(s, EndWrite(r, isize, broken))
    ensures Inv(Next(s, EndWrite(r, isize, broken)))
  {
    assert ReqOk(r, s.wb.reqs[r], s.wb.hist);
    EndKeeps(s.wb, r, isize, broken, Bias(s.nowrite));
    EndThreads(s, r, isize, broken);
    NotForbidden(s, r);
  }

  // While writes are forbidden none is in flight.
  lemma NotForbidden(s: State, r: nat)
    requires CountOk(s.wb, Bias(s.nowrite)) && NowriteOk(s) && r in s.wb.reqs && s.wb.reqs[r].stage.Sent?
    ensures !s.nowrite.Forbidden?
  {
    assert r in SentReqs(s.wb.reqs);
  }

  lemma GrowReqKeeps(s: State, t: Tid, p: nat)
    requires Inv(s) && Can(s, GrowReq(t, p))
    ensures Inv(Next(s, GrowReq(t, p)))
  {
    GrowKeeps(s.wb, s.cur[t], p, Bias(s.nowrite));
    GrowThreads(s, t, p);
  }

  lemma AddFreshKeeps(s: State, t: Tid, p: nat)
    requires Inv(s) && Can(s, AddFresh(t, p))
    ensures Inv(Next(s, AddFresh(t, p)))
  {
    AddNewKeeps(s.wb, p, Building(t), Bias(s.nowrite));
    AddFreshThreads(s, t, p);
  }

  lemma AddToChainKeeps(s: State, t: Tid, p: nat, r: nat)
    requires Inv(s) && Can(s, AddToChain(t, p, r))
    ensures Inv(Next(s, AddToChain(t, p, r)))
  {
    AddAuxKeeps(s.wb, r, p, Bias(s.nowrite));
    ChainThreads(s, t, p, r);
  }

  lemma SetNowriteKeeps(s: State, t: Tid)
    requires Inv(s) && Can(s, SetNowrite(t))
    ensures Inv(Next(s, SetNowrite(t)))
  {
    RebiasKeeps(s.wb, Next(s, SetNowrite(t)).wb, FUSE_NOWRITE, 0);
    assert ThreadsOk(Next(s, SetNowrite(t)));
  }

  // Steps that leave the requests alone
  lemma LocksKeep(s: State, a: Step)
    requires Inv(s) && Guard(s, a) && (a.LockPage? || a.CheckPage? || a.UnlockPage? || a.Drained?)
    ensures Inv(Next(s, a))
  {
  }

  lemma StepKeeps(s: State, a: Step)
    requires Inv(s) && Can(s, a)
    ensures Inv(Next(s, a))
  {
    match a
    case LockPage(t, p) => LocksKeep(s, a);
    case CheckPage(t, p) => LocksKeep(s, a);
    case UnlockPage(t, p) => LocksKeep(s, a);
    case GrowReq(t, p) => GrowReqKeeps(s, t, p);
    case AddFresh(t, p) => AddFreshKeeps(s, t, p);
    case AddToChain(t, p, r) => AddToChainKeeps(s, t, p, r);
    case WritePage(t, p, crop, broken) =>
      WritePageMeans(s, t, p, crop, broken);
      WritePageKeeps(s, t, p, crop, broken, Next(s, a));
    case SendBuilt(t, crop, broken) =>
      SendBuiltMeans(s, t, crop, broken);
      SendBuiltKeeps(s, t, crop, broken, Next(s, a));
    case EndWrite(r, isize, broken) => EndWriteKeeps(s, r, isize, broken);
    case SetNowrite(t) => SetNowriteKeeps(s, t);
    case Drained(t) => LocksKeep(s, a);
    case ReleaseNowrite(t, crop, broken) =>
      ReleaseMeans(s, t, crop, broken);
      ReleaseKeeps(s, crop, broken, Next(s, a));
    case Rotated(rotations) => RotatedKeeps(s, rotations, s.wb.(tree := Rebalance(s.wb.tree, rotations)));
  }

  // ------------------------------------------------ runs

  ghost predicate Run(ss: seq<State>, steps: seq<Step>) {
    && |ss| == |steps| + 1 && Init(ss[0])
    && forall i | 0 <= i < |steps| :: Can(ss[i], steps[i]) && ss[i + 1] == Next(ss[i], steps[i])
  }

  lemma InitKeeps(s: State)
    requires Init(s)
    ensures Inv(s)
  {
    assert SentReqs(s.wb.reqs) == {};
  }

  lemma {:induction false} RunKeeps(ss: seq<State>, steps: seq<Step>, i: nat)
    requires Run(ss, steps) && i < |ss|
    ensures Inv(ss[i])
  {
    if i == 0 {
      InitKeeps(ss[0]);
    } else {
      RunKeeps(ss, steps, i - 1);
      StepKeeps(ss[i - 1], steps[i - 1]);
    }
  }

  // Some write of page p has been sent and has not ended.
  ghost predicate WriteInFlight(s: State, p: nat) {
    exists r | r in s.wb.reqs :: Covers(r, s.wb.reqs[r], p) && IsSentFor(r, s.wb.reqs[r], p)
  }

  lemma PageState(s: State, p: nat)
    requires PartsOk(s.wb, [])
    ensures var h := s.wb.hist(p);
            Ascending(h.sent) && |h.sent| == h.ended + B(WriteInFlight(s, p)) && (!Covered(s.wb.reqs, p) ==> Settled(h))
  {
    var h := s.wb.hist(p);
    if r :| r in s.wb.reqs && Covers(r, s.wb.reqs[r], p) {
      assert ReqOk(r, s.wb.reqs[r], s.wb.hist);
      assert PageOk(r, s.wb.reqs[r], p, h);
      assert WriteInFlight(s, p) <==> IsSentFor(r, s.wb.reqs[r], p) by {
        if x :| x in s.wb.reqs && Covers(x, s.wb.reqs[x], p) && IsSentFor(x, s.wb.reqs[x], p) {
          OneCover(s.wb.reqs, r, x, p);
        }
      }
    } else {
      assert LeftOver([], p, h);
    }
  }

  // The writes of a page are sent in the order of their snapshots and never two at a time; when no request is left
  // for the page, its newest snapshot was the last one sent, or was dropped.
  lemma WritesInOrder(ss: seq<State>, steps: seq<Step>, i: nat, p: nat)
    requires Run(ss, steps) && i < |ss|
    ensures var s, h := ss[i], ss[i].wb.hist(p);
            && (forall j, k | 0 <= j < k < |h.sent| :: h.sent[j].snap < h.sent[k].snap)
            && |h.sent| == h.ended + B(WriteInFlight(s, p))
            && (!Covered(s.wb.reqs, p) ==>
                  h.ended == |h.sent| && (NewestSent(h) <==> h.lost != h.newest))
  {
    RunKeeps(ss, steps, i);
    PageState(ss[i], p);
  }
}
