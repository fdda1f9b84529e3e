// How much of a page its writes include: all of it, up to the end of the file, except where an auxiliary request is
// cropped to the size of a request that was sent before the file grew.
module WritebackExtents {
  import opened Basics
  import opened Writeback
  import opened WritebackInvariant
  import opened WritebackRuns
  import opened WritebackSafety

  // A write includes page p as far as the file went when it was sent.
  predicate Whole(p: nat, x: PageWrite) { (p + 1) * PAGE_SIZE <= x.end || x.isize <= x.end }

  // All writes of the page but the first n
  predicate WholeFrom(p: nat, h: PageHist, n: nat) { forall i | n <= i < |h.sent| :: Whole(p, h.sent[i]) }

  // Where page p must be cropped no earlier than the file ends
  predicate CropOk(p: nat, crop: nat, isize: nat) { isize <= crop || (p + 1) * PAGE_SIZE <= crop }

  // ------------------------------------------------ one section

  lemma CroppedEnd(r: nat, n: nat, crop: nat, p: nat)
    requires r <= p < r + n
    ensures Cropped(r, n, crop) > 0 && Reaches(r, Cropped(r, n, crop), p) <==> p * PAGE_SIZE < crop
    ensures p * PAGE_SIZE < crop ==>
              var end := r * PAGE_SIZE + Cropped(r, n, crop); end == crop || ((p + 1) * PAGE_SIZE <= end <= crop)
  {
  }

  lemma AppendWhole(p: nat, h: PageHist, x: PageWrite, n: nat)
    requires n <= |h.sent|
    ensures WholeFrom(p, h.(sent := h.sent + [x]), n) <==> WholeFrom(p, h, n) && Whole(p, x)
  {
    var s := h.sent + [x];
    assert forall i | 0 <= i < |h.sent| :: s[i] == h.sent[i];
    assert s[|h.sent|] == x;
  }

  lemma SendWhole(c: Core, r: nat, crop: nat, isize: nat, broken: bool, p: nat, was: seq<PageWrite>)
    requires r in c.reqs
    requires was <= c.hist(p).sent
    ensures was <= Send(c, r, crop, isize, broken).hist(p).sent
    ensures WholeFrom(p, Send(c, r, crop, isize, broken).hist(p), |was|) <==>
            WholeFrom(p, c.hist(p), |was|)
              && (Covers(r, c.reqs[r], p) && !broken && p * PAGE_SIZE < crop ==> CropOk(p, crop, isize))
  {
    var w := c.reqs[r];
    if Covers(r, w, p) {
      var size := Cropped(r, |w.snaps|, crop);
      CroppedEnd(r, |w.snaps|, crop, p);
      AppendWhole(p, c.hist(p), PageWrite(w.snaps[p - r], r * PAGE_SIZE + size, isize), |was|);
    }
  }

  // A request taken from the list is cropped where the file ends.
  lemma {:induction false} FlushWhole(c: Core, crop: nat, broken: set<nat>, p: nat, was: seq<PageWrite>)
    requires was <= c.hist(p).sent
    ensures was <= Flush(c, crop, broken).hist(p).sent
    ensures WholeFrom(p, Flush(c, crop, broken).hist(p), |was|) <==> WholeFrom(p, c.hist(p), |was|)
    decreases |c.queue|
  {
    if c.writectr >= 0 && c.queue != [] {
      var r, c' := c.queue[0], c.(queue := c.queue[1..]);
      if r in c'.reqs {
        SendWhole(c', r, crop, crop, r in broken, p, was);
        FlushWhole(Send(c', r, crop, crop, r in broken), crop, broken, p, was);
      }
    }
  }

  lemma HasAuxStep(next: seq<Aux>, p: nat)
    requires next != []
    ensures HasAux(next, p) <==> next[0].page == p || HasAux(next[1..], p)
  {
    assert forall i | 0 <= i < |next[1..]| :: next[1..][i] == next[i + 1];
    if i :| 0 < i < |next| && next[i].page == p {
      assert next[1..][i - 1].page == p;
    }
  }

  lemma {:induction false} ResendWhole(c: Core, next: seq<Aux>, crop: nat, isize: nat, broken: set<nat>, p: nat,
                                       was: seq<PageWrite>)
    requires was <= c.hist(p).sent
    ensures was <= Resend(c, next, crop, isize, broken).hist(p).sent
    ensures WholeFrom(p, Resend(c, next, crop, isize, broken).hist(p), |was|) <==>
            WholeFrom(p, c.hist(p), |was|)
              && (HasAux(next, p) && p !in broken && p * PAGE_SIZE < crop ==> CropOk(p, crop, isize))
    decreases |next|
  {
    if next != [] {
      var a, c' := next[0], Insert(c, next[0].page, next[0].snap, Queued);
      HasAuxStep(next, p);
      SendWhole(c', a.page, crop, isize, a.page in broken, p, was);
      ResendWhole(Send(c', a.page, crop, isize, a.page in broken), next[1..], crop, isize, broken, p, was);
    }
  }

  // ------------------------------------------------ one step

  // The end of a write whose auxiliary request for page p is cropped short: the file has grown, within or beyond the
  // page, past the end of what that write included.
  ghost predicate CropsShort(s: State, a: Step, p: nat)
    requires Guard(s, a)
  {
    a.EndWrite? &&
    var w := s.wb.reqs[a.r];
    var crop := a.r * PAGE_SIZE + w.stage.size;
    HasAux(w.next, p) && p !in a.broken && p * PAGE_SIZE < crop && !CropOk(p, crop, a.isize)
  }

  lemma EndWhole(c: Core, r: nat, isize: nat, broken: set<nat>, p: nat, crop: nat, was: seq<PageWrite>)
    requires r in c.reqs && c.reqs[r].stage.Sent? && crop == r * PAGE_SIZE + c.reqs[r].stage.size
    requires was <= c.hist(p).sent
    ensures was <= End(c, r, isize, broken).hist(p).sent
    ensures WholeFrom(p, End(c, r, isize, broken).hist(p), |was|) <==>
            WholeFrom(p, c.hist(p), |was|)
              && !(HasAux(c.reqs[r].next, p) && p !in broken && p * PAGE_SIZE < crop && !CropOk(p, crop, isize))
  {
    assert Unlinked(c, r).hist(p).sent == c.hist(p).sent;
    ResendWhole(Unlinked(c, r), c.reqs[r].next, crop, isize, broken, p, was);
  }

  lemma CollectWhole(s: State, a: Step, p: nat)
    requires Guard(s, a) && !(a.EndWrite? || a.WritePage? || a.SendBuilt? || a.ReleaseNowrite?)
    ensures Next(s, a).wb.hist(p).sent == s.wb.hist(p).sent
  {
  }

  lemma OtherWhole(s: State, a: Step, p: nat, was: seq<PageWrite>)
    requires Guard(s, a) && !a.EndWrite?
    requires was <= s.wb.hist(p).sent
    ensures was <= Next(s, a).wb.hist(p).sent
    ensures WholeFrom(p, Next(s, a).wb.hist(p), |was|) <==> WholeFrom(p, s.wb.hist(p), |was|)
  {
    if a.WritePage? {
      FlushWhole(Prepared(s, a.t, a.p).wb, a.crop, a.broken, p, was);
      assert Prepared(s, a.t, a.p).wb.hist(p).sent == s.wb.hist(p).sent;
    } else if a.SendBuilt? {
      FlushWhole(Handed(s, a.t).wb, a.crop, a.broken, p, was);
    } else if a.ReleaseNowrite? {
      FlushWhole(s.wb.(writectr := 0), a.crop, a.broken, p, was);
    } else {
      CollectWhole(s, a, p);
    }
  }

  lemma StepWhole(s: State, a: Step, p: nat, was: seq<PageWrite>)
    requires Guard(s, a)
    requires was <= s.wb.hist(p).sent
    ensures was <= Next(s, a).wb.hist(p).sent
    ensures WholeFrom(p, Next(s, a).wb.hist(p), |was|) <==> WholeFrom(p, s.wb.hist(p), |was|) && !CropsShort(s, a, p)
  {
    if a.EndWrite? {
      EndWhole(s.wb, a.r, a.isize, a.broken, p, a.r * PAGE_SIZE + s.wb.reqs[a.r].stage.size, was);
    } else {
      OtherWhole(s, a, p, was);
    }
  }

  // ------------------------------------------------ runs

  // Over any stretch of a run, every write of a page sent in it includes the page up to the end of the file exactly if
  // no request ended in it whose auxiliary request for the page was cropped short.
  lemma {:induction false} WholeExactly(ss: seq<State>, steps: seq<Step>, k: nat, i: nat, p: nat)
    requires Run(ss, steps) && k <= i < |ss|
    ensures ss[k].wb.hist(p).sent <= ss[i].wb.hist(p).sent
    ensures WholeFrom(p, ss[i].wb.hist(p), |ss[k].wb.hist(p).sent|)
      <==> forall j | k <= j < i :: !CropsShort(ss[j], steps[j], p)
  {
    if k < i {
      WholeExactly(ss, steps, k, i - 1, p);
      StepWhole(ss[i - 1], steps[i - 1], p, ss[k].wb.hist(p).sent);
    }
  }

  lemma SentBelow(s: State, p: nat)
    requires PartsOk(s.wb, [])
    ensures var h := s.wb.hist(p); h.sent != [] ==> h.sent[|h.sent| - 1].snap <= h.newest
  {
    var h := s.wb.hist(p);
    if r :| r in s.wb.reqs && Covers(r, s.wb.reqs[r], p) {
      assert ReqOk(r, s.wb.reqs[r], s.wb.hist) && PageOk(r, s.wb.reqs[r], p, h);
    } else {
      assert LeftOver([], p, h);
    }
  }

  lemma SentSoFar(ss: seq<State>, steps: seq<Step>, k: nat, p: nat)
    requires Run(ss, steps) && k < |ss|
    ensures var h := ss[k].wb.hist(p); h.sent != [] ==> h.sent[|h.sent| - 1].snap <= h.newest
  {
    RunKeeps(ss, steps, k);
    SentBelow(ss[k], p);
  }

  // A history in which the newest snapshot was sent after the writes in was, which are of older ones
  lemma LastIsNew(p: nat, h: PageHist, was: seq<PageWrite>)
    requires was <= h.sent && WholeFrom(p, h, |was|) && NewestSent(h)
    requires was != [] ==> was[|was| - 1].snap < h.newest
    ensures Whole(p, h.sent[|h.sent| - 1])
  {
  }

  // If no auxiliary request for page p has been cropped short since the page's newest snapshot was taken: once no
  // request is left for p, that snapshot has been written up to the end of the file, if and only if no step since then
  // dropped it.
  lemma NewestWhole(ss: seq<State>, steps: seq<Step>, k: nat, i: nat, p: nat)
    requires Run(ss, steps) && TakenAt(ss, k, i, p) && !Covered(ss[i].wb.reqs, p)
    requires forall j | k <= j < i :: !CropsShort(ss[j], steps[j], p)
    ensures var h := ss[i].wb.hist(p);
            && h.ended == |h.sent|
            && (NewestSent(h) && Whole(p, h.sent[|h.sent| - 1])
                <==> forall j | k <= j < i :: !Drops(ss[j], steps[j], p))
  {
    NewestWritten(ss, steps, k, i, p);
    if NewestSent(ss[i].wb.hist(p)) {
      WholeExactly(ss, steps, k, i, p);
      SentSoFar(ss, steps, k, p);
      LastIsNew(p, ss[i].wb.hist(p), ss[k].wb.hist(p).sent);
    }
  }
}
