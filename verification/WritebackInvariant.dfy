// What every section of Writeback keeps.
module WritebackInvariant {
  import opened Basics
  import opened Counting
  import opened WritebackTree
  import opened Writeback

  // ------------------------------------------------ one page

  predicate Ascending(s: seq<PageWrite>) { forall i, j | 0 <= i < j < |s| :: s[i].snap < s[j].snap }

  // Every write of the page sent so far has ended, and carried an older snapshot than s.
  predicate Ended(h: PageHist, s: nat) {
    Ascending(h.sent) && h.ended == |h.sent| && (h.sent != [] ==> h.sent[|h.sent| - 1].snap < s)
  }

  // The newest snapshot of the page was the last one sent.
  predicate NewestSent(h: PageHist) { h.sent != [] && h.sent[|h.sent| - 1].snap == h.newest }

  // Nothing is left to write of the page: its newest snapshot was the last one sent, or else it was dropped.
  predicate Settled(h: PageHist) {
    Ended(h, h.newest + 1) && h.lost <= h.newest && (NewestSent(h) <==> h.lost != h.newest)
  }

  // A write of snapshot s is on its way.
  predicate InFlight(h: PageHist, s: nat) {
    Ascending(h.sent) && h.ended + 1 == |h.sent| && h.sent[|h.sent| - 1].snap == s
  }

  predicate IsSentFor(r: nat, w: Wpa, p: nat) { w.stage.Sent? && Reaches(r, w.stage.size, p) }

  // What request r says about a page p that it covers
  predicate PageOk(r: nat, w: Wpa, p: nat, h: PageHist)
    requires Covers(r, w, p)
  {
    var s := w.snaps[p - r];
    && 1 <= s && h.newest == Newest(r, w, p)
    && (if HasAux(w.next, p) then s < Newest(r, w, p) else Newest(r, w, p) == s)
    && (if IsSentFor(r, w, p) then InFlight(h, s) else Ended(h, s))
    && (if w.stage.Sent? && !IsSentFor(r, w, p) then h.lost == s else h.lost < s)
  }

  // ------------------------------------------------ all requests

  ghost predicate TreeOk(c: Core) { Bst(c.tree) && Elems(c.tree) == c.reqs.Keys }

  // The page ranges are not empty and pairwise disjoint.
  ghost predicate Disjoint(reqs: map<nat, Wpa>) {
    && (forall r | r in reqs :: |reqs[r].snaps| >= 1)
    && (forall a, b | a in reqs && b in reqs && a < b :: a + |reqs[a].snaps| <= b)
  }

  // An auxiliary request is for a page of its request, and there is one for each such page at most.
  predicate ChainOk(r: nat, w: Wpa) {
    && (forall i | 0 <= i < |w.next| :: Covers(r, w, w.next[i].page))
    && DistinctPages(w.next)
  }

  predicate DistinctPages(next: seq<Aux>) { forall i, j | 0 <= i < j < |next| :: next[i].page != next[j].page }

  ghost predicate ReqOk(r: nat, w: Wpa, h: Hist) {
    ChainOk(r, w) && forall p | Covers(r, w, p) :: PageOk(r, w, p, h(p))
  }

  ghost predicate ReqsOk(c: Core) { forall r | r in c.reqs :: ReqOk(r, c.reqs[r], c.hist) }

  // What is left to write of a page p without a request, while the auxiliary requests in pend, whose own request has
  // been erased, wait to be inserted
  predicate LeftOver(pend: seq<Aux>, p: nat, h: PageHist) {
    if HasAux(pend, p) then Ended(h, AuxSnap(pend, p, 0)) && h.lost < h.newest == AuxSnap(pend, p, 0) else Settled(h)
  }

  ghost predicate RestOk(c: Core, pend: seq<Aux>) {
    && (forall p | !Covered(c.reqs, p) :: LeftOver(pend, p, c.hist(p)))
    && (forall i | 0 <= i < |pend| :: !Covered(c.reqs, pend[i].page))
    && DistinctPages(pend)
  }

  ghost predicate QueueOk(c: Core) {
    && (forall r | r in c.queue :: r in c.reqs && c.reqs[r].stage.Queued?)
    && Distinct(c.queue)
  }

  // Every queued request but those in out is on the list.
  ghost predicate AllQueued(c: Core, out: set<nat>) {
    forall r | r in c.reqs && c.reqs[r].stage.Queued? && r !in out :: r in c.queue
  }

  ghost function SentReqs(reqs: map<nat, Wpa>): set<nat> { Where(reqs, (w: Wpa) => w.stage.Sent?) }

  // extra: the bias, and 1 while a request is being ended
  ghost predicate CountOk(c: Core, extra: int) { c.writectr == |SentReqs(c.reqs)| + extra }

  // All but the list and the counter
  ghost predicate PartsOk(c: Core, pend: seq<Aux>) { TreeOk(c) && Disjoint(c.reqs) && ReqsOk(c) && RestOk(c, pend) }

  // The list and the counter
  ghost predicate ListsOk(c: Core, out: set<nat>, extra: int) { QueueOk(c) && AllQueued(c, out) && CountOk(c, extra) }

  ghost predicate CoreInv(c: Core, pend: seq<Aux>, out: set<nat>, extra: int) {
    PartsOk(c, pend) && ListsOk(c, out, extra)
  }

  // ------------------------------------------------ chains

  lemma {:induction false} AuxSnapAt(next: seq<Aux>, p: nat, s: nat, i: nat)
    requires i < |next| && next[i].page == p && DistinctPages(next)
    ensures AuxSnap(next, p, s) == next[i].snap
  {
    if i > 0 {
      assert next[0].page != p;
      AuxSnapAt(next[1..], p, s, i - 1);
    }
  }

  lemma {:induction false} AuxSnapNone(next: seq<Aux>, p: nat, s: nat)
    requires !HasAux(next, p)
    ensures AuxSnap(next, p, s) == s
  {
    if next != [] {
      assert next[0].page != p;
      assert forall i | 0 <= i < |next[1..]| :: next[1..][i] == next[i + 1];
      AuxSnapNone(next[1..], p, s);
    }
  }

  lemma {:induction false} SwapInKeeps(next: seq<Aux>, p: nat, snap: nat)
    ensures |SwapIn(next, p, snap)| == |next|
    ensures forall i | 0 <= i < |next| :: SwapIn(next, p, snap)[i].page == next[i].page
    ensures HasAux(next, p) ==> forall s :: AuxSnap(SwapIn(next, p, snap), p, s) == snap
    ensures forall x, s | x != p :: AuxSnap(SwapIn(next, p, snap), x, s) == AuxSnap(next, x, s)
  {
    if next != [] && next[0].page != p {
      SwapInKeeps(next[1..], p, snap);
      assert HasAux(next, p) ==> HasAux(next[1..], p) by {
        if i :| 0 <= i < |next| && next[i].page == p {
          assert next[1..][i - 1].page == p;
        }
      }
    }
  }

  // After the chain took a snapshot of p, that one is its snapshot of p; the others are as before.
  lemma ChainKeeps(next: seq<Aux>, p: nat, snap: nat)
    requires DistinctPages(next)
    ensures DistinctPages(Chain(next, p, snap)) && HasAux(Chain(next, p, snap), p)
    ensures forall s :: AuxSnap(Chain(next, p, snap), p, s) == snap
    ensures forall x | x != p :: HasAux(Chain(next, p, snap), x) == HasAux(next, x)
    ensures forall x, s | x != p :: AuxSnap(Chain(next, p, snap), x, s) == AuxSnap(next, x, s)
    ensures forall i | 0 <= i < |Chain(next, p, snap)| ::
      Chain(next, p, snap)[i].page == p || HasAux(next, Chain(next, p, snap)[i].page)
  {
    var c := Chain(next, p, snap);
    if HasAux(next, p) {
      SwapInKeeps(next, p, snap);
      forall x ensures HasAux(c, x) == HasAux(next, x) {
        assert forall i | 0 <= i < |next| :: c[i].page == next[i].page;
      }
    } else {
      assert c[0].page == p && c[1..] == next;
      forall x | x != p ensures HasAux(c, x) == HasAux(next, x) {
        assert forall i | 0 <= i < |next| :: c[i + 1] == next[i];
      }
    }
  }
}
