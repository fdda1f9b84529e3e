// The remaining steps of DaxWindow keep the invariant, and so does every run.
module DaxMoves {
  import opened DaxWindow
  import opened DaxInvariant
  import opened DaxSteps

  // ------------------------------------------------ reclaim

  // The branch of inode_inline_reclaim_one_dmap in which the range has vanished (987-991) is never taken: the
  // range picked before fuse_dax_break_layouts is still in the tree at the same index.
  lemma PickStays(s: State, t: Tid, w: Want, pick: Rid, x: nat)
    requires Inv(s) && At(s.threads, t) == On(w, InlinePicked(pick, x))
    ensures w.i in s.inodes && x in s.inodes[w.i].tree && s.inodes[w.i].tree[x] == pick && pick in s.dmaps
  {
    GetReady(s, t, w.i);
  }

  lemma InlineGivesUp(s: State, t: Tid, w: Want, pick: Rid, x: nat, pc': Pc)
    requires Ready(s, t, On(w, InlinePicked(pick, x)), w.i) && (pc' == Idle || pc' == On(w, Seek))
    ensures var s' := SetPc(SetInode(s, w.i, Unlock(s.inodes[w.i])), t, pc');
      Relocked(s, s', t, w.i) && ThreadInv(t, pc', s')
  {
  }

  lemma InlineTakeKeeps(s: State, t: Tid, w: Want, pick: Rid, x: nat, ok: bool)
    requires Inv(s) && At(s.threads, t) == On(w, InlinePicked(pick, x)) && Unlocked(s, w.i)
    ensures Inv(InlineTakeDo(s, t, w, pick, x, ok))
  {
    PickStays(s, t, w, pick, x);
    if Idleable(s.dmaps[pick]) && ok {
      TakeOutKeeps(s, t, On(w, InlineRemoved(pick)), w.i, x);
    } else {
      var pc' := if ok then On(w, Seek) else if Idleable(s.dmaps[pick]) then Idle else On(w, Seek);
      GetReady(s, t, w.i);
      InlineGivesUp(s, t, w, pick, x, pc');
      RelockedKeeps(s, SetPc(SetInode(s, w.i, Unlock(s.inodes[w.i])), t, pc'), t, w.i);
    }
  }

  lemma WorkGivesUp(s: State, t: Tid, i: Ino, x: nat)
    requires Ready(s, t, Work(i, x, Locked), i)
    ensures var s' := SetPc(SetInode(s, i, Unlock(s.inodes[i])), t, Idle);
      Relocked(s, s', t, i) && ThreadInv(t, Idle, s')
  {
  }

  lemma WorkTakeKeeps(s: State, t: Tid, i: Ino, x: nat, ok: bool)
    requires Inv(s) && At(s.threads, t) == Work(i, x, Locked) && Unlocked(s, i)
    ensures Inv(WorkTakeDo(s, t, i, x, ok))
  {
    var n := s.inodes[i];
    if x in n.tree && n.tree[x] in s.dmaps && Idleable(s.dmaps[n.tree[x]]) && ok {
      TakeOutKeeps(s, t, Work(i, x, Removed(n.tree[x])), i, x);
    } else {
      GetReady(s, t, i);
      WorkGivesUp(s, t, i, x);
      RelockedKeeps(s, SetPc(SetInode(s, i, Unlock(n)), t, Idle), t, i);
    }
  }

  // The range taken out leaves busy_ranges: it is now the thread's own (inline) or free (worker).
  lemma InlineUnbusyMoves(s: State, t: Tid, w: Want, r: Rid)
    requires ReadyFor(s, t, On(w, InlineRemoved(r)), r, w.i)
    ensures Moves(s, InlineUnbusyDo(s, t, w, r), t, r, w.i)
  {
    RemoveDistinct(s.fcd.busy, r);
    assert HoldsRange(On(w, InlineRemoved(r)), r) && HoldsSem(On(w, InlineRemoved(r)), w.i);
    assert HoldsInval(On(w, InlineRemoved(r)), w.i);
  }

  lemma InlineUnbusySettles(s: State, t: Tid, w: Want, r: Rid)
    requires ReadyFor(s, t, On(w, InlineRemoved(r)), r, w.i)
    ensures Settles(InlineUnbusyDo(s, t, w, r), t, r, w.i)
  {
    RemoveDistinct(s.fcd.busy, r);
    UsersStep(s.threads, t, On(w, Have(r)), r);
    assert HoldsRange(On(w, InlineRemoved(r)), r) && HoldsSem(On(w, InlineRemoved(r)), w.i);
  }

  lemma InlineUnbusyKeeps(s: State, t: Tid, w: Want, r: Rid)
    requires Inv(s) && At(s.threads, t) == On(w, InlineRemoved(r)) && r in s.dmaps && w.i in s.inodes
    ensures Inv(InlineUnbusyDo(s, t, w, r))
  {
    GetReadyFor(s, t, r, w.i);
    InlineUnbusyMoves(s, t, w, r);
    InlineUnbusySettles(s, t, w, r);
    StepFrame(s, InlineUnbusyDo(s, t, w, r), t, r, w.i);
  }

  lemma WorkFreeMoves(s: State, t: Tid, i: Ino, x: nat, r: Rid)
    requires ReadyFor(s, t, Work(i, x, Removed(r)), r, i)
    ensures Moves(s, WorkFreeDo(s, t, i, r), t, r, i)
  {
    RemoveDistinct(s.fcd.busy, r);
    Append(s.fcd.free, r);
    assert HoldsRange(Work(i, x, Removed(r)), r) && HoldsSem(Work(i, x, Removed(r)), i);
    assert HoldsInval(Work(i, x, Removed(r)), i);
  }

  lemma WorkFreeSettles(s: State, t: Tid, i: Ino, x: nat, r: Rid)
    requires ReadyFor(s, t, Work(i, x, Removed(r)), r, i)
    ensures Settles(WorkFreeDo(s, t, i, r), t, r, i)
  {
    RemoveDistinct(s.fcd.busy, r);
    Append(s.fcd.free, r);
    UsersStep(s.threads, t, Idle, r);
    assert HoldsRange(Work(i, x, Removed(r)), r) && HoldsSem(Work(i, x, Removed(r)), i);
  }

  lemma WorkFreeKeeps(s: State, t: Tid, i: Ino, x: nat, r: Rid)
    requires Inv(s) && At(s.threads, t) == Work(i, x, Removed(r)) && r in s.dmaps && i in s.inodes
    ensures Inv(WorkFreeDo(s, t, i, r))
  {
    GetReadyFor(s, t, r, i);
    WorkFreeMoves(s, t, i, x, r);
    WorkFreeSettles(s, t, i, x, r);
    StepFrame(s, WorkFreeDo(s, t, i, r), t, r, i);
  }

  // ------------------------------------------------ fuse_setup_new_dax_mapping

  // Somebody else has set up the mapping: t uses that one, and keeps its own range to give it back.
  lemma SetUpHitMoves(s: State, t: Tid, w: Want, r: Rid, q: Rid, size: nat, s': State)
    requires ReadyFor(s, t, On(w, Have(r)), q, w.i) && r in s.dmaps && s.inodes[w.i].sem.Nobody?
    requires w.Idx() in s.inodes[w.i].tree && s.inodes[w.i].tree[w.Idx()] == q && s' == SetUpDo(s, t, w, r, size, true)
    ensures Moves(s, s', t, q, w.i)
  {
  }

  lemma SetUpHitRange(s: State, t: Tid, w: Want, r: Rid, q: Rid, size: nat, s': State)
    requires ReadyFor(s, t, On(w, Have(r)), q, w.i) && r in s.dmaps && s.inodes[w.i].sem.Nobody?
    requires w.Idx() in s.inodes[w.i].tree && s.inodes[w.i].tree[w.Idx()] == q && s' == SetUpDo(s, t, w, r, size, true)
    ensures RangeInv(q, s'.dmaps[q], s')
  {
    UsersStep(s.threads, t, s'.threads[t], q);
    assert HoldsRange(On(w, Have(r)), r);
  }

  lemma SetUpHitSettles(s: State, t: Tid, w: Want, r: Rid, q: Rid, size: nat, s': State)
    requires ReadyFor(s, t, On(w, Have(r)), q, w.i) && r in s.dmaps && s.inodes[w.i].sem.Nobody?
    requires w.Idx() in s.inodes[w.i].tree && s.inodes[w.i].tree[w.Idx()] == q && s' == SetUpDo(s, t, w, r, size, true)
    ensures Settles(s', t, q, w.i)
  {
    SetUpHitRange(s, t, w, r, q, size, s');
    FillFits(w, size);
    assert HoldsRange(On(w, Have(r)), r);
  }

  lemma SetUpHitKeeps(s: State, t: Tid, w: Want, r: Rid, size: nat, ok: bool)
    requires Inv(s) && At(s.threads, t) == On(w, Have(r)) && r in s.dmaps && Unlocked(s, w.i)
      && w.Idx() in s.inodes[w.i].tree
    ensures Inv(SetUpDo(s, t, w, r, size, ok))
  {
    var q := s.inodes[w.i].tree[w.Idx()];
    GetInode(s, w.i);
    GetReadyFor(s, t, q, w.i);
    assert SetUpDo(s, t, w, r, size, ok) == SetUpDo(s, t, w, r, size, true);
    SetUpHitMoves(s, t, w, r, q, size, SetUpDo(s, t, w, r, size, true));
    SetUpHitSettles(s, t, w, r, q, size, SetUpDo(s, t, w, r, size, true));
    StepFrame(s, SetUpDo(s, t, w, r, size, true), t, q, w.i);
  }

  // The daemon refuses: the range is given back.
  lemma SetUpFailMoves(s: State, t: Tid, w: Want, r: Rid, size: nat, s': State)
    requires ReadyFor(s, t, On(w, Have(r)), r, w.i) && s.inodes[w.i].sem.Nobody?
    requires w.Idx() !in s.inodes[w.i].tree && s' == SetUpDo(s, t, w, r, size, false)
    ensures Moves(s, s', t, r, w.i) && Settles(s', t, r, w.i)
  {
    UsersStep(s.threads, t, s'.threads[t], r);
    assert HoldsRange(On(w, Have(r)), r);
  }

  lemma SetUpMoves(s: State, t: Tid, w: Want, r: Rid, size: nat, s': State)
    requires ReadyFor(s, t, On(w, Have(r)), r, w.i) && s.inodes[w.i].sem.Nobody?
    requires w.Idx() !in s.inodes[w.i].tree && s' == SetUpDo(s, t, w, r, size, true)
    ensures Moves(s, s', t, r, w.i)
  {
    assert HoldsRange(On(w, Have(r)), r);
  }

  lemma SetUpSettles(s: State, t: Tid, w: Want, r: Rid, size: nat, s': State)
    requires ReadyFor(s, t, On(w, Have(r)), r, w.i) && s.inodes[w.i].sem.Nobody?
    requires w.Idx() !in s.inodes[w.i].tree && s' == SetUpDo(s, t, w, r, size, true)
    ensures Settles(s', t, r, w.i)
  {
    TreeInsert(s.inodes[w.i].tree, w.Idx(), r);
    UsersStep(s.threads, t, s'.threads[t], r);
    assert HoldsRange(On(w, Have(r)), r);
  }

  lemma SetUpMissKeeps(s: State, t: Tid, w: Want, r: Rid, size: nat, ok: bool)
    requires Inv(s) && At(s.threads, t) == On(w, Have(r)) && r in s.dmaps && Unlocked(s, w.i)
      && w.Idx() !in s.inodes[w.i].tree
    ensures Inv(SetUpDo(s, t, w, r, size, ok))
  {
    GetReadyFor(s, t, r, w.i);
    if ok {
      SetUpMoves(s, t, w, r, size, SetUpDo(s, t, w, r, size, ok));
      SetUpSettles(s, t, w, r, size, SetUpDo(s, t, w, r, size, ok));
    } else {
      SetUpFailMoves(s, t, w, r, size, SetUpDo(s, t, w, r, size, ok));
    }
    StepFrame(s, SetUpDo(s, t, w, r, size, ok), t, r, w.i);
  }

  lemma ReturnMoves(s: State, t: Tid, w: Want, r: Rid, f: Fill)
    requires ReadyFor(s, t, On(w, GiveBack(r, f)), r, w.i)
    ensures Moves(s, ReturnDo(s, t, w, r, f), t, r, w.i)
  {
    Append(s.fcd.free, r);
    assert HoldsRange(On(w, GiveBack(r, f)), r) && HoldsSem(On(w, GiveBack(r, f)), w.i);
  }

  lemma ReturnSettles(s: State, t: Tid, w: Want, r: Rid, f: Fill)
    requires ReadyFor(s, t, On(w, GiveBack(r, f)), r, w.i)
    ensures Settles(ReturnDo(s, t, w, r, f), t, r, w.i)
  {
    Append(s.fcd.free, r);
    UsersStep(s.threads, t, FilledPc(w, f), r);
    assert HoldsRange(On(w, GiveBack(r, f)), r) && HoldsSem(On(w, GiveBack(r, f)), w.i);
    assert f.Filled? ==> Uses(On(w, GiveBack(r, f)), f.from);
  }

  lemma ReturnKeeps(s: State, t: Tid, w: Want, r: Rid, f: Fill)
    requires Inv(s) && At(s.threads, t) == On(w, GiveBack(r, f)) && r in s.dmaps && w.i in s.inodes
    ensures Inv(ReturnDo(s, t, w, r, f))
  {
    GetReadyFor(s, t, r, w.i);
    ReturnMoves(s, t, w, r, f);
    ReturnSettles(s, t, w, r, f);
    StepFrame(s, ReturnDo(s, t, w, r, f), t, r, w.i);
  }

  lemma PublishMoves(s: State, t: Tid, w: Want, r: Rid, size: nat)
    requires ReadyFor(s, t, On(w, Inserted(r)), r, w.i)
    ensures Moves(s, PublishDo(s, t, w, r, size), t, r, w.i)
  {
    Append(s.fcd.busy, r);
    assert HoldsSem(On(w, Inserted(r)), w.i);
  }

  lemma PublishRange(s: State, t: Tid, w: Want, r: Rid, size: nat, s': State)
    requires ReadyFor(s, t, On(w, Inserted(r)), r, w.i) && s' == PublishDo(s, t, w, r, size)
    ensures RangeInv(r, s'.dmaps[r], s')
  {
    Append(s.fcd.busy, r);
    UsersStep(s.threads, t, FilledPc(w, FillOf(w, r, size)), r);
  }

  lemma PublishSettles(s: State, t: Tid, w: Want, r: Rid, size: nat)
    requires ReadyFor(s, t, On(w, Inserted(r)), r, w.i)
    ensures Settles(PublishDo(s, t, w, r, size), t, r, w.i)
  {
    PublishRange(s, t, w, r, size, PublishDo(s, t, w, r, size));
    Append(s.fcd.busy, r);
    FillFits(w, size);
    assert HoldsSem(On(w, Inserted(r)), w.i);
  }

  lemma PublishKeeps(s: State, t: Tid, w: Want, r: Rid, size: nat)
    requires Inv(s) && At(s.threads, t) == On(w, Inserted(r)) && r in s.dmaps && w.i in s.inodes
    ensures Inv(PublishDo(s, t, w, r, size))
  {
    GetReadyFor(s, t, r, w.i);
    PublishMoves(s, t, w, r, size);
    PublishSettles(s, t, w, r, size);
    StepFrame(s, PublishDo(s, t, w, r, size), t, r, w.i);
  }
}
