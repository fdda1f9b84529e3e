// Runs of WritebackRuns in which the newest snapshot of a page is not written as a whole, or not at all, although the
// connection works.
module WritebackWitness {
  import opened Basics
  import opened WritebackTree
  import opened Writeback
  import opened WritebackInvariant
  import opened WritebackRuns
  import opened WritebackSafety
  import opened WritebackExtents

  // ------------------------------------------------ a file that grows

  // The first 100 bytes of a file are on their way when the file grows to a page and its page is written again.
  function GrowingSteps(): seq<Step> {
    [LockPage(0, 0), CheckPage(0, 0), WritePage(0, 0, 100, {}), AddToChain(0, 0, 0), EndWrite(0, 4096, {}),
     EndWrite(0, 4096, {})]
  }

  function EmptyFile(): State {
    State(Core(Leaf, map[], [], 0, (p: nat) => PageHist(0, [], 0, 0)), map[], map[], Allowed, Limits(1, PAGE_SIZE))
  }

  lemma OneReq(reqs: map<nat, Wpa>, w: Wpa)
    requires reqs == map[0 := w]
    ensures |reqs| == 1
  {
    assert reqs.Keys == {0};
  }

  // What the first three steps come to ...
  lemma SentShort(c: Core)
    requires c.reqs == map[] && c.queue == [] && c.writectr == 0 && c.hist(0) == PageHist(0, [], 0, 0) && c.tree == Leaf
    ensures var c' := Flush(Enqueue(AddNew(c, 0, Queued), 0), 100, {});
            && c'.reqs == map[0 := Wpa([1], [], Sent(100))] && c'.queue == [] && c'.writectr == 1
            && c'.hist(0) == PageHist(1, [PageWrite(1, 100, 100)], 0, 0)
  {
    var c1 := Enqueue(AddNew(c, 0, Queued), 0);
    assert c1.reqs == map[0 := Wpa([1], [], Queued)] && c1.queue == [0];
    var c2 := Send(c1.(queue := []), 0, 100, 100, false);
    assert c2.reqs == map[0 := Wpa([1], [], Sent(100))];
    assert Flush(c1, 100, {}) == Flush(c2, 100, {}) == c2;
  }

  // ... and the end of that write
  lemma ResentShort(c: Core)
    requires c.reqs == map[0 := Wpa([1], [Aux(0, 2)], Sent(100))]
      && c.hist(0) == PageHist(2, [PageWrite(1, 100, 100)], 0, 0)
    ensures var c' := End(c, 0, 4096, {});
            && c'.reqs == map[0 := Wpa([2], [], Sent(100))] && c'.writectr == c.writectr
            && c'.hist(0) == PageHist(2, [PageWrite(1, 100, 100), PageWrite(2, 100, 4096)], 1, 0)
  {
    var u := Unlinked(c, 0);
    assert u.reqs == map[];
    var c1 := Insert(u, 0, 2, Queued);
    assert c1.reqs == map[0 := Wpa([2], [], Queued)];
    var c2 := Send(c1, 0, 100, 4096, false);
    assert Resend(u, [Aux(0, 2)], 100, 4096, {}) == Resend(c2, [], 100, 4096, {}) == c2;
    assert c2.reqs == map[0 := Wpa([2], [], Sent(100))];
    assert [PageWrite(1, 100, 100)] + [PageWrite(2, 100, 4096)] == [PageWrite(1, 100, 100), PageWrite(2, 100, 4096)];
  }

  lemma EndedShort(c: Core)
    requires c.reqs == map[0 := Wpa([2], [], Sent(100))]
    ensures var c' := End(c, 0, 4096, {});
            c'.reqs == map[] && c'.hist(0) == c.hist(0).(ended := c.hist(0).ended + 1)
  {
    assert Unlinked(c, 0).reqs == map[];
    assert End(c, 0, 4096, {}).hist == Unlinked(c, 0).hist;
  }

  lemma ChainedShort(c: Core)
    requires c.reqs == map[0 := Wpa([1], [], Sent(100))] && c.hist(0) == PageHist(1, [PageWrite(1, 100, 100)], 0, 0)
    ensures AddAux(c, 0, 0).reqs == map[0 := Wpa([1], [Aux(0, 2)], Sent(100))]
    ensures AddAux(c, 0, 0).hist(0) == PageHist(2, [PageWrite(1, 100, 100)], 0, 0)
  {
    assert Chain([], 0, 2) == [Aux(0, 2)];
  }

  // The state before the first write is sent, after it, and after the page was chained to it
  ghost predicate LockedState(s: State) { s.wb == EmptyFile().wb && LocksClear(s, 0, 0) && s.cur == map[] }

  ghost predicate SentState(s: State) {
    && s.wb.reqs == map[0 := Wpa([1], [], Sent(100))] && s.wb.hist(0) == PageHist(1, [PageWrite(1, 100, 100)], 0, 0)
    && Locks(s, 0, 0) && s.cur == map[]
  }

  ghost predicate ChainedState(s: State) {
    && s.wb.reqs == map[0 := Wpa([1], [Aux(0, 2)], Sent(100))]
    && s.wb.hist(0) == PageHist(2, [PageWrite(1, 100, 100)], 0, 0)
  }

  ghost predicate GrowingStep(s: State, i: nat, s': State) {
    i < 6 && Can(s, GrowingSteps()[i]) && s' == Next(s, GrowingSteps()[i])
  }

  lemma LockFirst(s: State) returns (s': State, s'': State)
    requires s == EmptyFile()
    ensures Init(s) && GrowingStep(s, 0, s') && GrowingStep(s', 1, s'') && LockedState(s'')
  {
    s' := Next(s, GrowingSteps()[0]);
    s'' := Next(s', GrowingSteps()[1]);
  }

  lemma SendFirst(s: State) returns (s': State)
    requires LockedState(s)
    ensures GrowingStep(s, 2, s') && SentState(s')
  {
    SentShort(s.wb);
    s' := Next(s, GrowingSteps()[2]);
    OneReq(s'.wb.reqs, Wpa([1], [], Sent(100)));
  }

  lemma ChainNext(s: State) returns (s': State)
    requires SentState(s)
    ensures GrowingStep(s, 3, s') && ChainedState(s')
  {
    ChainedShort(s.wb);
    assert Covers(0, s.wb.reqs[0], 0);
    s' := Next(s, GrowingSteps()[3]);
    OneReq(s'.wb.reqs, Wpa([1], [Aux(0, 2)], Sent(100)));
  }

  lemma EndBoth(s: State) returns (s': State, s'': State)
    requires ChainedState(s)
    ensures GrowingStep(s, 4, s') && GrowingStep(s', 5, s'') && s''.wb.reqs == map[]
    ensures s''.wb.hist(0) == PageHist(2, [PageWrite(1, 100, 100), PageWrite(2, 100, 4096)], 2, 0)
  {
    ResentShort(s.wb);
    s' := Next(s, GrowingSteps()[4]);
    OneReq(s'.wb.reqs, Wpa([2], [], Sent(100)));
    EndedShort(s'.wb);
    s'' := Next(s', GrowingSteps()[5]);
  }

  lemma GrowingRun(ss: seq<State>)
    requires |ss| == 7 && ss[0] == EmptyFile() && forall i | 0 <= i < 6 :: GrowingStep(ss[i], i, ss[i + 1])
    ensures Run(ss, GrowingSteps())
  {
    forall i | 0 <= i < 6 ensures Can(ss[i], GrowingSteps()[i]) && ss[i + 1] == Next(ss[i], GrowingSteps()[i]) {
      assert GrowingStep(ss[i], i, ss[i + 1]);
    }
  }

  lemma GrowingStates() returns (ss: seq<State>)
    ensures |ss| == 7 && ss[0] == EmptyFile() && forall i | 0 <= i < 6 :: GrowingStep(ss[i], i, ss[i + 1])
    ensures ss[6].wb.reqs == map[]
    ensures ss[6].wb.hist(0) == PageHist(2, [PageWrite(1, 100, 100), PageWrite(2, 100, 4096)], 2, 0)
  {
    var s1, s2 := LockFirst(EmptyFile());
    var s3 := SendFirst(s2);
    var s4 := ChainNext(s3);
    var s5, s6 := EndBoth(s4);
    ss := [EmptyFile(), s1, s2, s3, s4, s5, s6];
  }

  // The newest snapshot was sent, but of the page's 4096 bytes only 100 are written.
  lemma GrownFile() returns (ss: seq<State>)
    ensures Run(ss, GrowingSteps())
    ensures var s := ss[|ss| - 1];
            && s.wb.reqs == map[]
            && s.wb.hist(0) == PageHist(2, [PageWrite(1, 100, 100), PageWrite(2, 100, 4096)], 2, 0)
            && NewestSent(s.wb.hist(0)) && !Whole(0, s.wb.hist(0).sent[1])
  {
    ss := GrowingStates();
    GrowingRun(ss);
  }

  // ------------------------------------------------ a file that is truncated and grows again

  // Two pages are collected; the file is cut to one page before they are sent, and while that one is on its way it
  // grows again and its second page is written again.
  function CutSteps(): seq<Step> {
    [LockPage(0, 0), AddFresh(0, 0), LockPage(0, 1), CheckPage(0, 1), GrowReq(0, 1), SendBuilt(0, 4096, {}),
     AddToChain(0, 1, 0), EndWrite(0, 8192, {})]
  }

  function EmptyPair(): State { EmptyFile().(fc := Limits(2, 2 * PAGE_SIZE)) }

  ghost predicate CutStep(s: State, i: nat, s': State) {
    i < 8 && Can(s, CutSteps()[i]) && s' == Next(s, CutSteps()[i])
  }

  // One page collected, then two
  ghost predicate OneBuilt(s: State) {
    && s.wb.reqs == map[0 := Wpa([1], [], Building(0))] && s.wb.queue == [] && s.wb.writectr == 0
    && s.wb.hist(1) == PageHist(0, [], 0, 0) && s.cur == map[0 := 0] && s.fc == Limits(2, 2 * PAGE_SIZE)
  }

  ghost predicate BothBuilt(s: State) {
    && s.wb.reqs == map[0 := Wpa([1, 1], [], Building(0))] && s.wb.queue == [] && s.wb.writectr == 0
    && s.wb.hist(1) == PageHist(1, [], 0, 0) && s.cur == map[0 := 0] && Locks(s, 0, 1)
  }

  // The second page cut off
  ghost predicate CutSent(s: State) {
    && s.wb.reqs == map[0 := Wpa([1, 1], [], Sent(4096))] && s.wb.hist(1) == PageHist(1, [], 0, 1) && s.cur == map[]
    && Locks(s, 0, 1)
  }

  ghost predicate CutChained(s: State) {
    s.wb.reqs == map[0 := Wpa([1, 1], [Aux(1, 2)], Sent(4096))] && s.wb.hist(1) == PageHist(2, [], 0, 1)
  }

  lemma BuildOne(s: State) returns (s1: State, s2: State)
    requires s == EmptyPair()
    ensures Init(s) && CutStep(s, 0, s1) && CutStep(s1, 1, s2) && OneBuilt(s2) && 1 !in s2.locks
  {
    s1 := Next(s, CutSteps()[0]);
    s2 := Next(s1, CutSteps()[1]);
    assert s2.wb.reqs == map[0 := Wpa([1], [], Building(0))];
    OneReq(s2.wb.reqs, Wpa([1], [], Building(0)));
  }

  lemma LockSecond(s: State) returns (s1: State, s2: State)
    requires OneBuilt(s) && 1 !in s.locks
    ensures CutStep(s, 2, s1) && CutStep(s1, 3, s2) && OneBuilt(s2) && LocksClear(s2, 0, 1)
  {
    OneReq(s.wb.reqs, Wpa([1], [], Building(0)));
    s1 := Next(s, CutSteps()[2]);
    s2 := Next(s1, CutSteps()[3]);
  }

  lemma GrownPair(c: Core)
    requires c.reqs == map[0 := Wpa([1], [], Building(0))] && c.hist(1) == PageHist(0, [], 0, 0)
    ensures Grow(c, 0, 1).reqs == map[0 := Wpa([1, 1], [], Building(0))]
      && Grow(c, 0, 1).hist(1) == PageHist(1, [], 0, 0)
  {
    assert [1] + [1] == [1, 1];
  }

  lemma BuildBoth(s: State) returns (s': State)
    requires OneBuilt(s) && LocksClear(s, 0, 1)
    ensures CutStep(s, 4, s') && BothBuilt(s')
  {
    GrownPair(s.wb);
    s' := Next(s, CutSteps()[4]);
    OneReq(s'.wb.reqs, Wpa([1, 1], [], Building(0)));
  }

  lemma CutPair(c: Core)
    requires c.reqs == map[0 := Wpa([1, 1], [], Building(0))] && c.queue == [] && c.writectr == 0
      && c.hist(1) == PageHist(1, [], 0, 0)
    ensures var c' := Flush(Enqueue(c, 0), 4096, {});
            c'.reqs == map[0 := Wpa([1, 1], [], Sent(4096))] && c'.hist(1) == PageHist(1, [], 0, 1)
  {
    var c1 := Enqueue(c, 0);
    assert c1.reqs == map[0 := Wpa([1, 1], [], Queued)] && c1.queue == [0];
    var c2 := Send(c1.(queue := []), 0, 4096, 4096, false);
    assert c2.reqs == map[0 := Wpa([1, 1], [], Sent(4096))];
    assert Flush(c1, 4096, {}) == Flush(c2, 4096, {}) == c2;
  }

  lemma SendCut(s: State) returns (s': State)
    requires BothBuilt(s)
    ensures CutStep(s, 5, s') && CutSent(s')
  {
    CutPair(s.wb);
    s' := Next(s, CutSteps()[5]);
    OneReq(s'.wb.reqs, Wpa([1, 1], [], Sent(4096)));
    assert s'.cur == map[];
  }

  lemma ChainedPair(c: Core)
    requires c.reqs == map[0 := Wpa([1, 1], [], Sent(4096))] && c.hist(1) == PageHist(1, [], 0, 1)
    ensures AddAux(c, 0, 1).reqs == map[0 := Wpa([1, 1], [Aux(1, 2)], Sent(4096))]
    ensures AddAux(c, 0, 1).hist(1) == PageHist(2, [], 0, 1)
  {
    assert Chain([], 1, 2) == [Aux(1, 2)];
  }

  lemma ChainCut(s: State) returns (s': State)
    requires CutSent(s)
    ensures CutStep(s, 6, s') && CutChained(s')
  {
    ChainedPair(s.wb);
    assert Covers(0, s.wb.reqs[0], 1);
    s' := Next(s, CutSteps()[6]);
    OneReq(s'.wb.reqs, Wpa([1, 1], [Aux(1, 2)], Sent(4096)));
  }

  lemma EndedPair(c: Core)
    requires c.reqs == map[0 := Wpa([1, 1], [Aux(1, 2)], Sent(4096))] && c.hist(1) == PageHist(2, [], 0, 1)
    ensures var c' := End(c, 0, 8192, {}); c'.reqs == map[] && c'.hist(1) == PageHist(2, [], 0, 2)
  {
    var u := Unlinked(c, 0);
    assert u.reqs == map[];
    var c1 := Insert(u, 1, 2, Queued);
    assert c1.reqs == map[1 := Wpa([2], [], Queued)];
    var c2 := Send(c1, 1, 4096, 8192, false);
    assert Resend(u, [Aux(1, 2)], 4096, 8192, {}) == Resend(c2, [], 4096, 8192, {}) == c2;
    assert c2.reqs == map[];
  }

  lemma EndCut(s: State) returns (s': State)
    requires CutChained(s)
    ensures CutStep(s, 7, s') && s'.wb.reqs == map[] && s'.wb.hist(1) == PageHist(2, [], 0, 2)
      && Drops(s, CutSteps()[7], 1)
  {
    EndedPair(s.wb);
    s' := Next(s, CutSteps()[7]);
    assert s.wb.reqs[0].next[0].page == 1;
  }

  ghost predicate CutPath(ss: seq<State>) { forall i | 0 <= i < |ss| - 1 :: CutStep(ss[i], i, ss[i + 1]) }

  lemma MoreCut(ss: seq<State>, s: State)
    requires ss != [] && CutPath(ss) && CutStep(ss[|ss| - 1], |ss| - 1, s)
    ensures CutPath(ss + [s])
  {
    var all := ss + [s];
    forall i | 0 <= i < |all| - 1 ensures CutStep(all[i], i, all[i + 1]) {
      if i < |ss| - 1 {
        assert CutStep(ss[i], i, ss[i + 1]);
      }
    }
  }

  lemma CutRun(ss: seq<State>)
    requires |ss| == 9 && ss[0] == EmptyPair() && CutPath(ss)
    ensures Run(ss, CutSteps())
  {
    forall i | 0 <= i < 8 ensures Can(ss[i], CutSteps()[i]) && ss[i + 1] == Next(ss[i], CutSteps()[i]) {
      assert CutStep(ss[i], i, ss[i + 1]);
    }
  }

  lemma Collected() returns (ss: seq<State>)
    ensures |ss| == 5 && ss[0] == EmptyPair() && CutPath(ss) && OneBuilt(ss[4]) && LocksClear(ss[4], 0, 1)
  {
    var s1, s2 := BuildOne(EmptyPair());
    var s3, s4 := LockSecond(s2);
    MoreCut([EmptyPair()], s1);
    MoreCut([EmptyPair(), s1], s2);
    MoreCut([EmptyPair(), s1, s2], s3);
    MoreCut([EmptyPair(), s1, s2, s3], s4);
    ss := [EmptyPair(), s1, s2, s3, s4];
  }

  lemma CutAndSent() returns (ss: seq<State>)
    ensures |ss| == 7 && ss[0] == EmptyPair() && CutPath(ss) && CutSent(ss[6])
  {
    ss := Collected();
    var s5 := BuildBoth(ss[4]);
    var s6 := SendCut(s5);
    MoreCut(ss, s5);
    MoreCut(ss + [s5], s6);
    ss := ss + [s5] + [s6];
  }

  lemma CutStates() returns (ss: seq<State>)
    ensures |ss| == 9 && ss[0] == EmptyPair() && CutPath(ss)
    ensures ss[8].wb.reqs == map[] && ss[8].wb.hist(1) == PageHist(2, [], 0, 2)
  {
    ss := CutAndSent();
    var s7 := ChainCut(ss[6]);
    var s8 := EndCut(s7);
    MoreCut(ss, s7);
    MoreCut(ss + [s7], s8);
    ss := ss + [s7] + [s8];
  }

  // The second page was written again after the file had grown to two pages, and nothing of it is ever sent.  It takes
  // a page that becomes dirty again while it is under writeback; fuse_write_begin and fuse_page_mkwrite, which wait for
  // the writeback to end, do not do that.
  lemma CutFile() returns (ss: seq<State>)
    ensures Run(ss, CutSteps()) && |ss| == 9 && ss[8].wb.reqs == map[] && ss[8].wb.hist(1) == PageHist(2, [], 0, 2)
  {
    ss := CutStates();
    CutRun(ss);
  }
}
