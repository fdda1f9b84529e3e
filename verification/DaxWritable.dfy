// Whether an iomap for a write lies on a range that is mapped writable.
module DaxWritable {
  import opened DaxWindow
  import opened DaxInvariant
  import opened DaxSteps
  import opened DaxSafety

  predicate ReadOnly(dmaps: map<Rid, Dmap>, r: Rid) { r in dmaps && !dmaps[r].writable }

  // A thread has an iomap for a write on a range that is mapped read-only, or is about to return it.
  predicate WritesReadOnly(pc: Pc, dmaps: map<Rid, Dmap>) {
    || (pc.Mapped? && pc.m.write && ReadOnly(dmaps, pc.r))
    || (pc.On? && pc.st.GiveBack? && pc.st.fill.Filled? && pc.w.write && ReadOnly(dmaps, pc.st.fill.from))
  }

  // fuse_setup_new_dax_mapping for a write finds, once it has dax->sem, that the index has been mapped read-only in the
  // meantime, and fills the iomap all the same.
  predicate HitsReadOnly(s: State, t: Tid, a: Action) {
    var pc := At(s.threads, t);
    && pc.On? && pc.st.Have? && a.SetUp? && pc.w.write && FillLen(pc.w, a.size) > 0 && pc.w.i in s.inodes
    && pc.w.Idx() in s.inodes[pc.w.i].tree && ReadOnly(s.dmaps, s.inodes[pc.w.i].tree[pc.w.Idx()])
  }

  // A range newly mapped for a write is writable.
  ghost predicate InsertedOk(pc: Pc, dmaps: map<Rid, Dmap>) {
    pc.On? && pc.st.Inserted? && pc.w.write ==> !ReadOnly(dmaps, pc.st.made)
  }

  ghost predicate WritableInv(s: State) { forall t | t in s.threads :: InsertedOk(s.threads[t], s.dmaps) }

  // ------------------------------------------------ what a step does to writable

  // A range becomes read-only only where a thread maps a range of its own for reading.
  ghost predicate MapsForReading(s: State, t: Tid, a: Action, r: Rid) {
    At(s.threads, t).On? && At(s.threads, t).st == Have(r) && a.SetUp?
  }

  lemma StageWritable(s: State, t: Tid, w: Want, st: Stage, a: Action, r: Rid)
    requires StageCan(s, w, st, a) && ReadOnly(StageDo(s, t, w, st, a).dmaps, r)
    ensures ReadOnly(s.dmaps, r) || (st == Have(r) && a.SetUp?)
  {
  }

  lemma StepWritable(s: State, t: Tid, a: Action, r: Rid)
    requires Can(s, t, a) && ReadOnly(Next(s, t, a).dmaps, r)
    ensures ReadOnly(s.dmaps, r) || MapsForReading(s, t, a, r)
  {
    var pc := At(s.threads, t);
    if pc.On? {
      StageWritable(s, t, pc.w, pc.st, a, r);
    }
  }

  predicate Touches(pc: Pc, r: Rid) { Uses(pc, r) || (pc.On? && pc.st == Inserted(r)) }

  // What a thread says stays true unless a range that it touches becomes read-only.
  lemma KeptBy(pc: Pc, dmaps: map<Rid, Dmap>, dmaps': map<Rid, Dmap>)
    requires forall r: Rid | ReadOnly(dmaps', r) && Touches(pc, r) :: ReadOnly(dmaps, r)
    ensures (WritesReadOnly(pc, dmaps') ==> WritesReadOnly(pc, dmaps))
      && (InsertedOk(pc, dmaps) ==> InsertedOk(pc, dmaps'))
  {
    assert pc.On? && pc.st.Inserted? ==> Touches(pc, pc.st.made);
    assert pc.Mapped? ==> Touches(pc, pc.r);
    assert pc.On? && pc.st.GiveBack? && pc.st.fill.Filled? ==> Touches(pc, pc.st.fill.from);
  }

  // A range that another thread touches is not one that is being mapped.
  lemma TouchedKept(s: State, t: Tid, a: Action, u: Tid, r: Rid)
    requires Inv(s) && Can(s, t, a) && u != t && Touches(At(s.threads, u), r) && ReadOnly(Next(s, t, a).dmaps, r)
    ensures ReadOnly(s.dmaps, r)
  {
    StepWritable(s, t, a, r);
    if MapsForReading(s, t, a, r) {
      GetThread(s, t);
      GetThread(s, u);
      Apart(s, t, u, r);
    }
  }

  lemma OthersKept(s: State, t: Tid, a: Action, u: Tid, s': State)
    requires Inv(s) && Can(s, t, a) && s' == Next(s, t, a) && u != t
    ensures At(s'.threads, u) == At(s.threads, u)
    ensures WritesReadOnly(At(s.threads, u), s'.dmaps) ==> WritesReadOnly(At(s.threads, u), s.dmaps)
    ensures InsertedOk(At(s.threads, u), s.dmaps) ==> InsertedOk(At(s.threads, u), s'.dmaps)
  {
    OtherPc(s, t, a, u);
    forall r: Rid | ReadOnly(s'.dmaps, r) && Touches(At(s.threads, u), r) ensures ReadOnly(s.dmaps, r) {
      TouchedKept(s, t, a, u, r);
    }
    KeptBy(At(s.threads, u), s.dmaps, s'.dmaps);
  }

  lemma OtherPc(s: State, t: Tid, a: Action, u: Tid)
    requires Can(s, t, a) && u != t
    ensures At(Next(s, t, a).threads, u) == At(s.threads, u)
  {
    var pc := At(s.threads, t);
    if pc.On? {
      StagePc(s, t, pc.w, pc.st, a, u);
    }
  }

  lemma StagePc(s: State, t: Tid, w: Want, st: Stage, a: Action, u: Tid)
    requires StageCan(s, w, st, a) && u != t
    ensures At(StageDo(s, t, w, st, a).threads, u) == At(s.threads, u)
  {
  }

  lemma Apart(s: State, t: Tid, u: Tid, r: Rid)
    requires OwnsOk(t, At(s.threads, t), s.dmaps) && OwnsOk(u, At(s.threads, u), s.dmaps) && u != t
    requires At(s.threads, t).On? && At(s.threads, t).st == Have(r)
    ensures !Touches(At(s.threads, u), r)
  {
    assert HoldsRange(At(s.threads, t), r);
  }

  // ------------------------------------------------ the thread itself

  lemma StageOwn(s: State, t: Tid, w: Want, st: Stage, a: Action, s': State)
    requires At(s.threads, t) == On(w, st) && StageCan(s, w, st, a) && s' == StageDo(s, t, w, st, a)
    requires InsertedOk(On(w, st), s.dmaps)
    ensures InsertedOk(At(s'.threads, t), s'.dmaps)
    ensures WritesReadOnly(At(s'.threads, t), s'.dmaps) <==> WritesReadOnly(On(w, st), s.dmaps) || HitsReadOnly(s, t, a)
  {
  }

  lemma OwnStep(s: State, t: Tid, a: Action, s': State)
    requires Can(s, t, a) && s' == Next(s, t, a) && InsertedOk(At(s.threads, t), s.dmaps)
    ensures InsertedOk(At(s'.threads, t), s'.dmaps)
    ensures WritesReadOnly(At(s'.threads, t), s'.dmaps) && !WritesReadOnly(At(s.threads, t), s.dmaps)
      <==> HitsReadOnly(s, t, a)
  {
    var pc := At(s.threads, t);
    if pc.On? {
      StageOwn(s, t, pc.w, pc.st, a, s');
    }
  }

  // Whether thread t writes to a read-only range in s
  predicate Wrong(s: State, t: Tid) { WritesReadOnly(At(s.threads, t), s.dmaps) }

  lemma StepInserted(s: State, t: Tid, a: Action, s': State)
    requires Inv(s) && WritableInv(s) && Can(s, t, a) && s' == Next(s, t, a)
    ensures WritableInv(s')
  {
    OwnStep(s, t, a, s');
    forall v | v in s'.threads ensures InsertedOk(s'.threads[v], s'.dmaps) {
      if v != t {
        OthersKept(s, t, a, v, s');
      }
    }
  }

  // A step makes an iomap for a write on a read-only range exactly if it is the hit above, and then for its own thread.
  lemma OnlyHits(s: State, t: Tid, a: Action, u: Tid, s': State)
    requires Inv(s) && WritableInv(s) && Can(s, t, a) && s' == Next(s, t, a)
    ensures Wrong(s', u) && !Wrong(s, u) <==> u == t && HitsReadOnly(s, t, a)
  {
    if u == t {
      OwnStep(s, t, a, s');
    } else {
      OthersKept(s, t, a, u, s');
    }
  }

  // ------------------------------------------------ runs

  lemma {:induction false} RunWritable(n: nat, ss: seq<State>, steps: seq<Step>, k: nat)
    requires Run(n, ss, steps) && k < |ss|
    ensures WritableInv(ss[k])
  {
    if k > 0 {
      RunKeeps(n, ss, steps, k - 1);
      RunWritable(n, ss, steps, k - 1);
      StepInserted(ss[k - 1], steps[k - 1].t, steps[k - 1].a, ss[k]);
    }
  }

  ghost predicate NoneWrong(s: State) { forall t: Tid :: !Wrong(s, t) }

  lemma RunStep(n: nat, ss: seq<State>, steps: seq<Step>, k: nat)
    requires Run(n, ss, steps) && k < |steps| && NoneWrong(ss[k])
    ensures NoneWrong(ss[k + 1]) <==> !HitsReadOnly(ss[k], steps[k].t, steps[k].a)
  {
    var s, t, a, s' := ss[k], steps[k].t, steps[k].a, ss[k + 1];
    RunKeeps(n, ss, steps, k);
    RunWritable(n, ss, steps, k);
    forall u: Tid ensures Wrong(s', u) <==> u == t && HitsReadOnly(s, t, a) {
      assert !Wrong(s, u);
      OnlyHits(s, t, a, u, s');
    }
    assert HitsReadOnly(s, t, a) ==> Wrong(s', t);
  }

  // In a run every iomap for a write is on a writable range, at every moment, if and only if no step is such a hit.
  lemma {:induction false} WritesWritable(n: nat, ss: seq<State>, steps: seq<Step>, k: nat)
    requires Run(n, ss, steps) && k < |ss|
    ensures (forall j | 0 <= j <= k :: NoneWrong(ss[j])) <==>
            (forall j | 0 <= j < k :: !HitsReadOnly(ss[j], steps[j].t, steps[j].a))
  {
    if k > 0 {
      WritesWritable(n, ss, steps, k - 1);
      if NoneWrong(ss[k - 1]) {
        RunStep(n, ss, steps, k - 1);
      }
    }
  }
}
