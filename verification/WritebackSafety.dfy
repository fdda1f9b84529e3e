// What fuse_set_nowrite guarantees, and that no snapshot is left behind.  How much of its page a write includes is the
// subject of WritebackExtents.
module WritebackSafety {
  import opened Basics
  import opened Writeback
  import opened WritebackInvariant
  import opened WritebackKeeps
  import opened WritebackRuns

  lemma RunCounts(ss: seq<State>, steps: seq<Step>, i: nat)
    requires Run(ss, steps) && i < |ss|
    ensures CountOk(ss[i].wb, Bias(ss[i].nowrite)) && NowriteOk(ss[i])
  {
    RunKeeps(ss, steps, i);
  }

  // ------------------------------------------------ blocking writes

  // writectr is the number of writes in flight plus the bias.
  lemma WritectrExact(ss: seq<State>, steps: seq<Step>, i: nat)
    requires Run(ss, steps) && i < |ss|
    ensures var s := ss[i]; s.wb.writectr == |SentReqs(s.wb.reqs)| + (if s.nowrite.Allowed? then 0 else FUSE_NOWRITE)
  {
    RunCounts(ss, steps, i);
  }

  // Neither BUG_ON can fire: fuse_set_nowrite finds writectr not negative, and release finds exactly the bias.
  lemma BugOnsUnreachable(ss: seq<State>, steps: seq<Step>, i: nat, t: Tid)
    requires Run(ss, steps) && i < |ss|
    ensures Guard(ss[i], SetNowrite(t)) ==> ss[i].wb.writectr >= 0
    ensures ss[i].nowrite == Forbidden(t) ==> ss[i].wb.writectr == FUSE_NOWRITE
  {
    RunCounts(ss, steps, i);
  }

  // From the return of fuse_set_nowrite until the release, no request is in flight ...
  lemma NothingInFlight(ss: seq<State>, steps: seq<Step>, i: nat, r: nat)
    requires Run(ss, steps) && i < |ss| && ss[i].nowrite.Forbidden? && r in ss[i].wb.reqs
    ensures !ss[i].wb.reqs[r].stage.Sent?
  {
    RunKeeps(ss, steps, i);
    if ss[i].wb.reqs[r].stage.Sent? {
      NotForbidden(ss[i], r);
    }
  }

  // ... and none gets sent.
  lemma NothingSent(ss: seq<State>, steps: seq<Step>, i: nat, p: nat)
    requires Run(ss, steps) && i < |steps| && ss[i].nowrite.Forbidden? && ss[i + 1].nowrite.Forbidden?
    ensures ss[i + 1].wb.hist(p).sent == ss[i].wb.hist(p).sent
  {
    RunCounts(ss, steps, i);
    StepSendsNone(ss[i], steps[i], p);
  }

  lemma StepSendsNone(s: State, a: Step, p: nat)
    requires s.wb.writectr == FUSE_NOWRITE && CountOk(s.wb, FUSE_NOWRITE) && Guard(s, a) && !a.ReleaseNowrite?
    ensures Next(s, a).wb.hist(p).sent == s.wb.hist(p).sent
  {
    if a.EndWrite? {
      NoneSent(s.wb, a.r);
    }
  }

  lemma NoneSent(c: Core, r: nat)
    requires c.writectr == FUSE_NOWRITE && CountOk(c, FUSE_NOWRITE) && r in c.reqs
    ensures !c.reqs[r].stage.Sent?
  {
    assert SentReqs(c.reqs) == {};
    assert r !in SentReqs(c.reqs);
  }

  // Release dispatches everything queued.
  lemma ReleaseSendsAll(ss: seq<State>, steps: seq<Step>, i: nat, r: nat)
    requires Run(ss, steps) && i < |steps| && steps[i].ReleaseNowrite? && r in ss[i + 1].wb.reqs
    ensures !ss[i + 1].wb.reqs[r].stage.Queued?
  {
    RunQueue(ss, steps, i + 1);
  }

  lemma RunQueue(ss: seq<State>, steps: seq<Step>, i: nat)
    requires Run(ss, steps) && i < |ss|
    ensures AllQueued(ss[i].wb, {}) && NowriteOk(ss[i])
  {
    RunKeeps(ss, steps, i);
  }

  // ------------------------------------------------ no snapshot lost

  lemma ReachesBelow(r: nat, n: nat, crop: nat, p: nat)
    requires r <= p < r + n && p * PAGE_SIZE < crop
    ensures Cropped(r, n, crop) > 0 && Reaches(r, Cropped(r, n, crop), p)
  {
    assert (r + n) * PAGE_SIZE == r * PAGE_SIZE + n * PAGE_SIZE;
    assert r * PAGE_SIZE <= p * PAGE_SIZE < (r + n) * PAGE_SIZE;
  }

  // Sending drops a page only if the connection is broken or the page begins beyond the end of the file.
  lemma SendLosesNone(c: Core, r: nat, crop: nat, isize: nat, broken: bool, p: nat)
    requires r in c.reqs && !broken && p * PAGE_SIZE < crop
    ensures Send(c, r, crop, isize, broken).hist(p).lost == c.hist(p).lost
  {
    if Covers(r, c.reqs[r], p) {
      ReachesBelow(r, |c.reqs[r].snaps|, crop, p);
    }
  }

  // The newest snapshot of the page was dropped.
  predicate LostNow(h: PageHist) { h.newest > 0 && h.lost == h.newest }

  // Sending request r, which covers page p, drops the page's newest snapshot: the connection is broken, or the page
  // begins beyond the end of the file; an auxiliary request only goes with a request that is dropped as a whole.
  predicate DropsFrom(r: nat, w: Wpa, crop: nat, broken: bool, p: nat)
    requires Covers(r, w, p)
  {
    broken || (if HasAux(w.next, p) then crop <= r * PAGE_SIZE else crop <= p * PAGE_SIZE)
  }

  lemma CroppedNone(r: nat, n: nat, crop: nat, p: nat)
    requires r <= p < r + n
    ensures Cropped(r, n, crop) == 0 <==> crop <= r * PAGE_SIZE
    ensures Cropped(r, n, crop) > 0 ==> (Reaches(r, Cropped(r, n, crop), p) <==> p * PAGE_SIZE < crop)
  {
  }

  lemma SendDrops(c: Core, r: nat, crop: nat, isize: nat, broken: bool, p: nat)
    requires r in c.reqs && !c.reqs[r].stage.Sent? && Covers(r, c.reqs[r], p) && PageOk(r, c.reqs[r], p, c.hist(p))
    ensures LostNow(Send(c, r, crop, isize, broken).hist(p)) <==> DropsFrom(r, c.reqs[r], crop, broken, p)
  {
    CroppedNone(r, |c.reqs[r].snaps|, crop, p);
  }

  lemma SendElsewhere(c: Core, r: nat, crop: nat, isize: nat, broken: bool, p: nat)
    requires r in c.reqs && !Covers(r, c.reqs[r], p)
    ensures Send(c, r, crop, isize, broken).hist(p) == c.hist(p)
  {
  }

  lemma SendNewest(c: Core, r: nat, crop: nat, isize: nat, broken: bool, p: nat)
    requires r in c.reqs
    ensures Send(c, r, crop, isize, broken).hist(p).newest == c.hist(p).newest
  {
  }

  // ------------------------------------------------ flushing

  // Some request on the list covers p and drops its newest snapshot.
  ghost predicate QueuedDrop(c: Core, crop: nat, broken: set<nat>, p: nat) {
    c.writectr >= 0 &&
    exists r | r in c.queue && r in c.reqs && Covers(r, c.reqs[r], p) :: DropsFrom(r, c.reqs[r], crop, r in broken, p)
  }

  // The first request on the list covers p: no other one there does.
  lemma HeadOnly(c: Core, crop: nat, broken: set<nat>, p: nat, r: nat)
    requires Disjoint(c.reqs) && QueueOk(c) && c.writectr >= 0 && c.queue != [] && r == c.queue[0]
      && Covers(r, c.reqs[r], p)
    ensures QueuedDrop(c, crop, broken, p) <==> DropsFrom(r, c.reqs[r], crop, r in broken, p)
  {
    assert r in c.queue;
    forall x | x in c.queue && Covers(x, c.reqs[x], p) ensures x == r {
      OneCover(c.reqs, r, x, p);
    }
  }

  lemma RestNone(c: Core, crop: nat, broken: set<nat>, p: nat, r: nat, c': Core)
    requires Disjoint(c.reqs) && QueueOk(c) && c.queue != [] && r == c.queue[0] && Covers(r, c.reqs[r], p)
    requires c'.queue == c.queue[1..] && forall x | x != r && x in c'.reqs :: x in c.reqs && c'.reqs[x] == c.reqs[x]
    ensures !QueuedDrop(c', crop, broken, p)
  {
    assert r in c.queue && r !in c'.queue;
    forall x | x in c'.queue && x in c'.reqs ensures !Covers(x, c'.reqs[x], p) {
      if Covers(x, c.reqs[x], p) {
        OneCover(c.reqs, r, x, p);
      }
    }
  }

  lemma RestSame(c: Core, crop: nat, broken: set<nat>, p: nat, r: nat, c': Core)
    requires QueueOk(c) && c.queue != [] && r == c.queue[0] && !Covers(r, c.reqs[r], p) && c.writectr >= 0
      && c'.writectr >= 0
    requires c'.queue == c.queue[1..] && forall x | x != r && x in c.reqs :: x in c'.reqs && c'.reqs[x] == c.reqs[x]
    ensures QueuedDrop(c', crop, broken, p) <==> QueuedDrop(c, crop, broken, p)
  {
    assert r in c.queue && r !in c'.queue && forall x | x in c.queue && x != r :: x in c'.queue;
  }

  lemma HeadDrops(c: Core, crop: nat, broken: set<nat>, p: nat, c': Core)
    requires PartsOk(c, []) && QueueOk(c) && c.writectr >= 0 && c.queue != []
    requires c' == Send(Pop(c), c.queue[0], crop, crop, c.queue[0] in broken)
    ensures LostNow(c'.hist(p)) || QueuedDrop(c', crop, broken, p)
      <==> LostNow(c.hist(p)) || QueuedDrop(c, crop, broken, p)
  {
    var r := c.queue[0];
    assert r in c.queue && c'.queue == c.queue[1..];
    if Covers(r, c.reqs[r], p) {
      assert ReqOk(r, c.reqs[r], c.hist) && PageOk(r, c.reqs[r], p, c.hist(p));
      SendDrops(Pop(c), r, crop, crop, r in broken, p);
      HeadOnly(c, crop, broken, p, r);
      RestNone(c, crop, broken, p, r, c');
    } else {
      SendElsewhere(Pop(c), r, crop, crop, r in broken, p);
      RestSame(c, crop, broken, p, r, c');
    }
  }

  lemma {:induction false} FlushDrops(c: Core, crop: nat, broken: set<nat>, p: nat)
    requires PartsOk(c, []) && QueueOk(c)
    ensures LostNow(Flush(c, crop, broken).hist(p)) <==> LostNow(c.hist(p)) || QueuedDrop(c, crop, broken, p)
    ensures Flush(c, crop, broken).hist(p).newest == c.hist(p).newest
    decreases |c.queue|
  {
    if c.writectr >= 0 && c.queue != [] {
      var r := c.queue[0];
      var c' := Send(Pop(c), r, crop, crop, r in broken);
      HeadDrops(c, crop, broken, p, c');
      SendNewest(Pop(c), r, crop, crop, r in broken, p);
      SendFirst(c, r, crop, r in broken);
      SendQueue(c, r, crop, crop, r in broken);
      FlushDrops(c', crop, broken, p);
    }
  }

  // ------------------------------------------------ ending

  // An auxiliary request for p that is not sent when its request ends: it begins beyond the end of that request, or the
  // connection is broken.
  predicate AuxDrop(next: seq<Aux>, crop: nat, broken: set<nat>, p: nat) {
    HasAux(next, p) && (p in broken || crop <= p * PAGE_SIZE)
  }

  lemma NextDrops(c: Core, next: seq<Aux>, crop: nat, isize: nat, broken: set<nat>, p: nat, c': Core)
    requires PartsOk(c, next) && next != []
    requires c' ==
      Send(Insert(c, next[0].page, next[0].snap, Queued), next[0].page, crop, isize, next[0].page in broken)
    ensures LostNow(c'.hist(p)) || AuxDrop(next[1..], crop, broken, p)
      <==> LostNow(c.hist(p)) || AuxDrop(next, crop, broken, p)
    ensures c'.hist(p).newest == c.hist(p).newest
  {
    var a, ci := next[0], Insert(c, next[0].page, next[0].snap, Queued);
    NextPending(c, next);
    if a.page == p {
      assert Covers(p, ci.reqs[p], p) && PageOk(p, ci.reqs[p], p, ci.hist(p));
      SendDrops(ci, p, crop, isize, p in broken, p);
      assert HasAux(next, p) && !HasAux(next[1..], p) && !HasAux(ci.reqs[p].next, p);
    } else {
      SendElsewhere(ci, a.page, crop, isize, a.page in broken, p);
      HasAuxTail(next, p);
    }
    SendNewest(ci, a.page, crop, isize, a.page in broken, p);
  }

  lemma HasAuxTail(next: seq<Aux>, p: nat)
    requires next != [] && next[0].page != p
    ensures HasAux(next, p) <==> HasAux(next[1..], p)
  {
    assert forall i | 0 <= i < |next[1..]| :: next[1..][i] == next[i + 1];
    if i :| 0 <= i < |next| && next[i].page == p {
      assert next[1..][i - 1].page == p;
    }
  }

  lemma {:induction false} ResendDrops(c: Core, next: seq<Aux>, crop: nat, isize: nat, broken: set<nat>, p: nat)
    requires PartsOk(c, next)
    ensures LostNow(Resend(c, next, crop, isize, broken).hist(p))
      <==> LostNow(c.hist(p)) || AuxDrop(next, crop, broken, p)
    ensures Resend(c, next, crop, isize, broken).hist(p).newest == c.hist(p).newest
    decreases |next|
  {
    if next != [] {
      var a, ci := next[0], Insert(c, next[0].page, next[0].snap, Queued);
      var c' := Send(ci, a.page, crop, isize, a.page in broken);
      NextDrops(c, next, crop, isize, broken, p, c');
      NextPending(c, next);
      InsertParts(c, a.page, a.snap, ci, next[1..]);
      SendParts(ci, a.page, crop, isize, a.page in broken, next[1..]);
      ResendDrops(c', next[1..], crop, isize, broken, p);
    }
  }

  lemma EndDrops(c: Core, r: nat, isize: nat, broken: set<nat>, p: nat)
    requires r in c.reqs && c.reqs[r].stage.Sent? && PartsOk(Unlinked(c, r), c.reqs[r].next)
    ensures LostNow(End(c, r, isize, broken).hist(p)) <==>
            LostNow(c.hist(p)) || AuxDrop(c.reqs[r].next, r * PAGE_SIZE + c.reqs[r].stage.size, broken, p)
    ensures End(c, r, isize, broken).hist(p).newest == c.hist(p).newest
  {
    UnlinkedHist(c, r, p);
    ResendDrops(Unlinked(c, r), c.reqs[r].next, r * PAGE_SIZE + c.reqs[r].stage.size, isize, broken, p);
  }

  lemma UnlinkedHist(c: Core, r: nat, p: nat)
    requires r in c.reqs
    ensures Unlinked(c, r).hist(p).lost == c.hist(p).lost && Unlinked(c, r).hist(p).newest == c.hist(p).newest
  {
  }

  // ------------------------------------------------ steps

  // Step a drops the newest snapshot of page p, a new one included that it takes itself.
  ghost predicate Drops(s: State, a: Step, p: nat)
    requires Guard(s, a)
  {
    match a
    case WritePage(t, x, crop, broken) => QueuedDrop(Prepared(s, t, x).wb, crop, broken, p)
    case SendBuilt(t, crop, broken) => QueuedDrop(Handed(s, t).wb, crop, broken, p)
    case ReleaseNowrite(_, crop, broken) => QueuedDrop(Released(s).wb, crop, broken, p)
    case EndWrite(r, _, broken) => AuxDrop(s.wb.reqs[r].next, r * PAGE_SIZE + s.wb.reqs[r].stage.size, broken, p)
    case _ => false
  }

  // As long as the connection works and the file reaches into page p, nothing but the end of a write drops its
  // snapshot.
  lemma KeptNotDropped(s: State, a: Step, p: nat)
    requires Guard(s, a)
    requires match a case WritePage(_, _, crop, broken) => broken == {} && p * PAGE_SIZE < crop
                     case SendBuilt(_, crop, broken) => broken == {} && p * PAGE_SIZE < crop
                     case ReleaseNowrite(_, crop, broken) => broken == {} && p * PAGE_SIZE < crop
                     case EndWrite(_, _, _) => false
                     case _ => true
    ensures !Drops(s, a, p)
  {
  }

  lemma LostBelow(c: Core, p: nat)
    requires PartsOk(c, [])
    ensures c.hist(p).lost <= c.hist(p).newest
  {
    if r :| r in c.reqs && Covers(r, c.reqs[r], p) {
      assert ReqOk(r, c.reqs[r], c.hist) && PageOk(r, c.reqs[r], p, c.hist(p));
    } else {
      assert LeftOver([], p, c.hist(p));
    }
  }

  // What a step does to the newest snapshot: it stays, or a newer one is taken; it is dropped exactly if it was before,
  // or this step drops it.
  ghost predicate DropsRight(h: PageHist, h': PageHist, drops: bool) {
    h.newest <= h'.newest && (LostNow(h') <==> (h'.newest == h.newest && LostNow(h)) || drops)
  }

  lemma CollectDrops(s: State, a: Step, p: nat)
    requires Guard(s, a) && !(a.EndWrite? || a.WritePage? || a.SendBuilt? || a.ReleaseNowrite?)
    requires s.wb.hist(p).lost <= s.wb.hist(p).newest
    ensures DropsRight(s.wb.hist(p), Next(s, a).wb.hist(p), false)
  {
  }

  lemma WritePageDrops(s: State, t: Tid, x: nat, crop: nat, broken: set<nat>, p: nat)
    requires CoreInv(s.wb, [], {}, Bias(s.nowrite)) && ThreadsOk(s) && Guard(s, WritePage(t, x, crop, broken))
    ensures DropsRight(s.wb.hist(p), Next(s, WritePage(t, x, crop, broken)).wb.hist(p),
                       Drops(s, WritePage(t, x, crop, broken), p))
  {
    WritePageMeans(s, t, x, crop, broken);
    LostBelow(s.wb, p);
    PreparedCore(s.wb, x, Bias(s.nowrite));
    FlushDrops(Prepared(s, t, x).wb, crop, broken, p);
    PreparedHist(s, t, x, p);
  }

  lemma PreparedHist(s: State, t: Tid, x: nat, p: nat)
    ensures var h := s.wb.hist(p); Prepared(s, t, x).wb.hist(p) == if p == x then h.(newest := h.newest + 1) else h
  {
  }

  lemma SendBuiltDrops(s: State, t: Tid, crop: nat, broken: set<nat>, p: nat)
    requires CoreInv(s.wb, [], {}, Bias(s.nowrite)) && ThreadsOk(s) && Guard(s, SendBuilt(t, crop, broken))
    ensures DropsRight(s.wb.hist(p), Next(s, SendBuilt(t, crop, broken)).wb.hist(p),
                       Drops(s, SendBuilt(t, crop, broken), p))
  {
    SendBuiltMeans(s, t, crop, broken);
    EnqueueKeeps(s.wb, s.cur[t], {}, Bias(s.nowrite));
    FlushDrops(Handed(s, t).wb, crop, broken, p);
  }

  lemma ReleaseDrops(s: State, t: Tid, crop: nat, broken: set<nat>, p: nat)
    requires CoreInv(s.wb, [], {}, Bias(s.nowrite)) && Guard(s, ReleaseNowrite(t, crop, broken))
    ensures DropsRight(s.wb.hist(p), Next(s, ReleaseNowrite(t, crop, broken)).wb.hist(p),
                       Drops(s, ReleaseNowrite(t, crop, broken), p))
  {
    ReleaseMeans(s, t, crop, broken);
    SameParts(s.wb, Released(s).wb, []);
    FlushDrops(Released(s).wb, crop, broken, p);
  }

  lemma StepDrops(s: State, a: Step, p: nat)
    requires CoreInv(s.wb, [], {}, Bias(s.nowrite)) && ThreadsOk(s) && Guard(s, a)
    ensures DropsRight(s.wb.hist(p), Next(s, a).wb.hist(p), Drops(s, a, p))
  {
    match a
    case WritePage(t, x, crop, broken) => WritePageDrops(s, t, x, crop, broken, p);
    case SendBuilt(t, crop, broken) => SendBuiltDrops(s, t, crop, broken, p);
    case ReleaseNowrite(t, crop, broken) => ReleaseDrops(s, t, crop, broken, p);
    case EndWrite(r, isize, broken) =>
      UnlinkParts(s.wb, r);
      EndDrops(s.wb, r, isize, broken, p);
    case _ =>
      LostBelow(s.wb, p);
      CollectDrops(s, a, p);
  }

  // ------------------------------------------------ runs

  // Step k takes the snapshot of page p that is its newest at moment i.
  ghost predicate TakenAt(ss: seq<State>, k: nat, i: nat, p: nat) {
    k < i < |ss| && ss[k].wb.hist(p).newest < ss[k + 1].wb.hist(p).newest == ss[i].wb.hist(p).newest
  }

  lemma RunStepDrops(ss: seq<State>, steps: seq<Step>, i: nat, p: nat)
    requires Run(ss, steps) && i < |steps|
    ensures DropsRight(ss[i].wb.hist(p), ss[i + 1].wb.hist(p), Drops(ss[i], steps[i], p))
  {
    RunKeeps(ss, steps, i);
    StepDrops(ss[i], steps[i], p);
  }

  // The history of one page over a run, and which steps drop its newest snapshot
  ghost predicate History(hs: seq<PageHist>, ds: seq<bool>) {
    |hs| == |ds| + 1 && forall i | 0 <= i < |ds| :: DropsRight(hs[i], hs[i + 1], ds[i])
  }

  lemma {:induction false} NewestGrows(hs: seq<PageHist>, ds: seq<bool>, i: nat, j: nat)
    requires History(hs, ds) && i <= j < |hs|
    ensures hs[i].newest <= hs[j].newest
  {
    if i < j {
      NewestGrows(hs, ds, i, j - 1);
      assert DropsRight(hs[j - 1], hs[j - 1 + 1], ds[j - 1]);
    }
  }

  lemma {:induction false} DroppedSince(hs: seq<PageHist>, ds: seq<bool>, k: nat, i: nat)
    requires History(hs, ds) && k < i < |hs| && hs[k].newest < hs[k + 1].newest == hs[i].newest
    ensures LostNow(hs[i]) <==> exists j | k <= j < i :: ds[j]
  {
    assert DropsRight(hs[i - 1], hs[i - 1 + 1], ds[i - 1]);
    if i > k + 1 {
      NewestGrows(hs, ds, k + 1, i - 1);
      DroppedSince(hs, ds, k, i - 1);
    }
  }

  ghost function PageHists(ss: seq<State>, p: nat): seq<PageHist> {
    seq(|ss|, i requires 0 <= i < |ss| => ss[i].wb.hist(p))
  }

  ghost function AllDrops(ss: seq<State>, steps: seq<Step>, p: nat): seq<bool>
    requires Run(ss, steps)
  {
    seq(|steps|, i requires 0 <= i < |steps| => Drops(ss[i], steps[i], p))
  }

  lemma RunHistory(ss: seq<State>, steps: seq<Step>, p: nat)
    requires Run(ss, steps)
    ensures History(PageHists(ss, p), AllDrops(ss, steps, p))
  {
    var hs, ds := PageHists(ss, p), AllDrops(ss, steps, p);
    forall i | 0 <= i < |ds| ensures DropsRight(hs[i], hs[i + 1], ds[i]) {
      RunStepDrops(ss, steps, i, p);
    }
  }

  // The newest snapshot has been dropped exactly if one of the steps from the one that took it on dropped it.
  lemma DroppedExactly(ss: seq<State>, steps: seq<Step>, k: nat, i: nat, p: nat)
    requires Run(ss, steps) && TakenAt(ss, k, i, p)
    ensures LostNow(ss[i].wb.hist(p)) <==> exists j | k <= j < i :: Drops(ss[j], steps[j], p)
  {
    var ds := AllDrops(ss, steps, p);
    RunHistory(ss, steps, p);
    DroppedSince(PageHists(ss, p), ds, k, i);
    if j :| k <= j < i && ds[j] {
      assert Drops(ss[j], steps[j], p);
    }
    if j :| k <= j < i && Drops(ss[j], steps[j], p) {
      assert ds[j];
    }
  }

  // Once no request is left for page p: the last write that included some of the page took it from its newest snapshot,
  // and has ended, if and only if no step since that snapshot was taken dropped it.
  lemma NewestWritten(ss: seq<State>, steps: seq<Step>, k: nat, i: nat, p: nat)
    requires Run(ss, steps) && TakenAt(ss, k, i, p) && !Covered(ss[i].wb.reqs, p)
    ensures var h := ss[i].wb.hist(p);
            h.ended == |h.sent| && (NewestSent(h) <==> forall j | k <= j < i :: !Drops(ss[j], steps[j], p))
  {
    WritesInOrder(ss, steps, i, p);
    DroppedExactly(ss, steps, k, i, p);
  }
}
