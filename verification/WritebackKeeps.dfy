// Every section of Writeback keeps the invariant.
module WritebackKeeps {
  import opened Basics
  import opened Counting
  import opened WritebackTree
  import opened Writeback
  import opened WritebackInvariant

  lemma OneCover(reqs: map<nat, Wpa>, a: nat, b: nat, p: nat)
    requires Disjoint(reqs) && a in reqs && b in reqs && Covers(a, reqs[a], p) && Covers(b, reqs[b], p)
    ensures a == b
  {
  }

  // A request keeps its promise when the history of its pages is unchanged.
  lemma Unmoved(r: nat, w: Wpa, h: Hist, h': Hist)
    requires ReqOk(r, w, h) && forall p | Covers(r, w, p) :: h'(p) == h(p)
    ensures ReqOk(r, w, h')
  {
  }

  // The other requests do not see a change of r's pages.
  lemma OthersUnmoved(c: Core, r: nat, h': Hist)
    requires Disjoint(c.reqs) && ReqsOk(c) && r in c.reqs
    requires forall p | !Covers(r, c.reqs[r], p) :: h'(p) == c.hist(p)
    ensures forall x | x in c.reqs && x != r :: ReqOk(x, c.reqs[x], h')
  {
    forall x | x in c.reqs && x != r ensures ReqOk(x, c.reqs[x], h') {
      forall p | Covers(x, c.reqs[x], p) ensures h'(p) == c.hist(p) {
        if Covers(r, c.reqs[r], p) {
          OneCover(c.reqs, r, x, p);
        }
      }
      Unmoved(x, c.reqs[x], c.hist, h');
    }
  }

  lemma SentStep(reqs: map<nat, Wpa>, r: nat, w: Wpa)
    ensures |SentReqs(reqs[r := w])| == |SentReqs(reqs)| - B(r in reqs && reqs[r].stage.Sent?) + B(w.stage.Sent?)
  {
    WhereStep(reqs, (w: Wpa) => w.stage.Sent?, r, w);
  }

  lemma SentErased(reqs: map<nat, Wpa>, r: nat)
    requires r in reqs
    ensures |SentReqs(reqs - {r})| == |SentReqs(reqs)| - B(reqs[r].stage.Sent?)
  {
    WhereMinus(reqs, (w: Wpa) => w.stage.Sent?, r);
  }

  // ------------------------------------------------ replacing one request

  // Only the request r and the history of its pages change: everything about the other requests is kept.
  ghost predicate Replaced(c: Core, r: nat, c': Core) {
    && r in c.reqs && r in c'.reqs && c'.tree == c.tree && c'.reqs == c.reqs[r := c'.reqs[r]]
    && |c'.reqs[r].snaps| == |c.reqs[r].snaps|
    && forall p | !Covers(r, c.reqs[r], p) :: c'.hist(p) == c.hist(p)
  }

  lemma ReplaceKeeps(c: Core, r: nat, c': Core, pend: seq<Aux>)
    requires PartsOk(c, pend) && Replaced(c, r, c') && ReqOk(r, c'.reqs[r], c'.hist)
    ensures PartsOk(c', pend)
  {
    var w := c'.reqs[r];
    OthersUnmoved(c, r, c'.hist);
    assert c'.reqs.Keys == c.reqs.Keys;
    forall p ensures Covered(c'.reqs, p) == Covered(c.reqs, p) {
      SameCover(c.reqs, r, w, p);
    }
    forall p | !Covered(c'.reqs, p) ensures c'.hist(p) == c.hist(p) {
      assert !Covers(r, c.reqs[r], p);
    }
  }

  lemma SameCover(reqs: map<nat, Wpa>, r: nat, w: Wpa, p: nat)
    requires r in reqs && |w.snaps| == |reqs[r].snaps|
    ensures Covered(reqs[r := w], p) == Covered(reqs, p)
  {
    var reqs' := reqs[r := w];
    if x :| x in reqs && Covers(x, reqs[x], p) {
      assert Covers(x, reqs'[x], p);
    }
    if x :| x in reqs' && Covers(x, reqs'[x], p) {
      assert Covers(x, reqs[x], p);
    }
  }

  // ------------------------------------------------ removing one request

  lemma ErasedCover(reqs: map<nat, Wpa>, r: nat, p: nat)
    requires Disjoint(reqs) && r in reqs
    ensures Covered(reqs - {r}, p) <==> Covered(reqs, p) && !Covers(r, reqs[r], p)
  {
    if x :| x in reqs - {r} && Covers(x, (reqs - {r})[x], p) {
      assert Covers(x, reqs[x], p);
      if Covers(r, reqs[r], p) {
        OneCover(reqs, r, x, p);
      }
    }
    if x :| x in reqs && Covers(x, reqs[x], p) {
      if x != r {
        assert Covers(x, (reqs - {r})[x], p);
      }
    }
  }

  ghost predicate Removed(c: Core, r: nat, c': Core) {
    && r in c.reqs && c'.tree == Erase(c.tree, r) && c'.reqs == c.reqs - {r}
    && forall p | !Covers(r, c.reqs[r], p) :: c'.hist(p) == c.hist(p)
  }

  // The request r is erased; the requests in pend, which may have been chained to it, wait to be inserted.
  lemma RemoveKeeps(c: Core, r: nat, c': Core, pend: seq<Aux>)
    requires TreeOk(c) && Disjoint(c.reqs) && ReqsOk(c) && Removed(c, r, c') && DistinctPages(pend)
    requires forall p | !Covered(c.reqs, p) || Covers(r, c.reqs[r], p) :: LeftOver(pend, p, c'.hist(p))
    requires forall i | 0 <= i < |pend| :: Covers(r, c.reqs[r], pend[i].page) || !Covered(c.reqs, pend[i].page)
    ensures PartsOk(c', pend)
  {
    OthersUnmoved(c, r, c'.hist);
    EraseKeeps(c.tree, r);
    forall p ensures Covered(c'.reqs, p) <==> Covered(c.reqs, p) && !Covers(r, c.reqs[r], p) {
      ErasedCover(c.reqs, r, p);
    }
  }

  // ------------------------------------------------ sending

  lemma SendPages(r: nat, w: Wpa, h: Hist, size: nat, isize: nat)
    requires ReqOk(r, w, h) && !w.stage.Sent?
    ensures ReqOk(r, w.(stage := Sent(size)), SendHist(h, r, w, size, isize))
  {
    var w', h' := w.(stage := Sent(size)), SendHist(h, r, w, size, isize);
    forall p | Covers(r, w', p) ensures PageOk(r, w', p, h'(p)) {
      assert PageOk(r, w, p, h(p));
    }
  }

  lemma DropPages(r: nat, w: Wpa, h: Hist, p: nat)
    requires ReqOk(r, w, h) && !w.stage.Sent? && Covers(r, w, p)
    ensures Settled(DropHist(h, r, w)(p))
  {
    assert PageOk(r, w, p, h(p));
  }

  lemma SendParts(c: Core, r: nat, crop: nat, isize: nat, broken: bool, pend: seq<Aux>)
    requires PartsOk(c, pend) && r in c.reqs && !c.reqs[r].stage.Sent?
    ensures PartsOk(Send(c, r, crop, isize, broken), pend)
  {
    var w := c.reqs[r];
    var size := Cropped(r, |w.snaps|, crop);
    if size == 0 || broken {
      DropParts(c, r, Send(c, r, crop, isize, broken), pend);
    } else {
      SendPages(r, w, c.hist, size, isize);
      ReplaceKeeps(c, r, Send(c, r, crop, isize, broken), pend);
    }
  }

  lemma DropParts(c: Core, r: nat, c': Core, pend: seq<Aux>)
    requires PartsOk(c, pend) && r in c.reqs && !c.reqs[r].stage.Sent?
    requires c'.tree == Erase(c.tree, r) && c'.reqs == c.reqs - {r} && c'.hist == DropHist(c.hist, r, c.reqs[r])
    ensures PartsOk(c', pend)
  {
    var w := c.reqs[r];
    forall p | !Covered(c.reqs, p) || Covers(r, w, p) ensures LeftOver(pend, p, c'.hist(p)) {
      if Covers(r, w, p) {
        DropPages(r, w, c.hist, p);
        assert Covered(c.reqs, p);
      }
    }
    RemoveKeeps(c, r, c', pend);
  }

  lemma SendLists(c: Core, r: nat, crop: nat, isize: nat, broken: bool, extra: int)
    requires ListsOk(c, {r}, extra) && r in c.reqs && !c.reqs[r].stage.Sent? && r !in c.queue
    ensures ListsOk(Send(c, r, crop, isize, broken), {}, extra)
    ensures Send(c, r, crop, isize, broken).queue == c.queue
  {
    SentErased(c.reqs, r);
    SentStep(c.reqs, r, c.reqs[r].(stage := Sent(Cropped(r, |c.reqs[r].snaps|, crop))));
  }

  lemma SameParts(c: Core, c': Core, pend: seq<Aux>)
    requires PartsOk(c, pend) && c'.tree == c.tree && c'.reqs == c.reqs && c'.hist == c.hist
    ensures PartsOk(c', pend)
  {
  }

  // The first queued request is taken off the list.
  function Pop(c: Core): Core
    requires c.queue != []
  {
    c.(queue := c.queue[1..])
  }

  lemma PopLists(c: Core, extra: int)
    requires ListsOk(c, {}, extra) && c.queue != []
    ensures var r := c.queue[0];
      ListsOk(Pop(c), {r}, extra) && r in c.reqs && !c.reqs[r].stage.Sent? && r !in Pop(c).queue
  {
    assert forall x | x in c.queue && x != c.queue[0] :: x in c.queue[1..];
  }

  lemma {:induction false} FlushLists(c: Core, crop: nat, broken: set<nat>, extra: int)
    requires ListsOk(c, {}, extra)
    ensures var c' := Flush(c, crop, broken); ListsOk(c', {}, extra) && (c'.writectr < 0 || c'.queue == [])
    decreases |c.queue|
  {
    if c.writectr >= 0 && c.queue != [] {
      var r := c.queue[0];
      PopLists(c, extra);
      SendLists(Pop(c), r, crop, crop, r in broken, extra);
      FlushLists(Send(Pop(c), r, crop, crop, r in broken), crop, broken, extra);
    }
  }

  lemma SendQueue(c: Core, r: nat, crop: nat, isize: nat, broken: bool)
    requires QueueOk(c) && c.queue != [] && r == c.queue[0]
    ensures QueueOk(Send(Pop(c), r, crop, isize, broken)) && Send(Pop(c), r, crop, isize, broken).queue == c.queue[1..]
  {
  }

  lemma SendFirst(c: Core, r: nat, crop: nat, broken: bool)
    requires PartsOk(c, []) && QueueOk(c) && c.queue != [] && r == c.queue[0]
    ensures PartsOk(Send(Pop(c), r, crop, crop, broken), [])
  {
    SameParts(c, Pop(c), []);
    SendParts(Pop(c), r, crop, crop, broken, []);
  }

  lemma {:induction false} FlushParts(c: Core, crop: nat, broken: set<nat>)
    requires PartsOk(c, []) && QueueOk(c)
    ensures PartsOk(Flush(c, crop, broken), [])
    decreases |c.queue|
  {
    if c.writectr >= 0 && c.queue != [] {
      var r := c.queue[0];
      SendFirst(c, r, crop, r in broken);
      SendQueue(c, r, crop, crop, r in broken);
      FlushParts(Send(Pop(c), r, crop, crop, r in broken), crop, broken);
    }
  }

  lemma FlushKeeps(c: Core, crop: nat, broken: set<nat>, extra: int)
    requires CoreInv(c, [], {}, extra)
    ensures var c' := Flush(c, crop, broken); CoreInv(c', [], {}, extra) && (c'.writectr < 0 || c'.queue == [])
  {
    FlushParts(c, crop, broken);
    FlushLists(c, crop, broken, extra);
  }

  // ------------------------------------------------ inserting

  lemma InsertedCover(reqs: map<nat, Wpa>, r: nat, w: Wpa, p: nat)
    requires r !in reqs && |w.snaps| == 1
    ensures Covered(reqs[r := w], p) <==> Covered(reqs, p) || p == r
  {
    var reqs' := reqs[r := w];
    if x :| x in reqs && Covers(x, reqs[x], p) {
      assert Covers(x, reqs'[x], p);
    }
    if p == r {
      assert Covers(r, reqs'[r], p);
    }
    if x :| x in reqs' && Covers(x, reqs'[x], p) {
      if x != r {
        assert Covers(x, reqs[x], p);
      }
    }
  }

  ghost predicate Inserted(c: Core, p: nat, snap: nat, c': Core) {
    && c'.tree == Link(c.tree, p) && p in c'.reqs && c'.reqs == c.reqs[p := c'.reqs[p]]
    && c'.reqs[p].snaps == [snap] && c'.reqs[p].next == [] && !c'.reqs[p].stage.Sent?
    && Ended(c'.hist(p), snap) && c'.hist(p).lost < c'.hist(p).newest == snap
    && forall x | x != p :: c'.hist(x) == c.hist(x)
  }

  lemma InsertReqs(c: Core, p: nat, snap: nat, c': Core)
    requires ReqsOk(c) && !Covered(c.reqs, p) && Inserted(c, p, snap, c')
    ensures ReqsOk(c')
  {
    forall x | x in c.reqs ensures ReqOk(x, c.reqs[x], c'.hist) {
      assert forall y | Covers(x, c.reqs[x], y) :: Covered(c.reqs, y);
      Unmoved(x, c.reqs[x], c.hist, c'.hist);
    }
    assert ReqOk(p, c'.reqs[p], c'.hist);
  }

  lemma InsertRest(c: Core, p: nat, snap: nat, c': Core, pend: seq<Aux>)
    requires p !in c.reqs && Inserted(c, p, snap, c') && DistinctPages(pend)
    requires forall x | !Covered(c.reqs, x) && x != p :: LeftOver(pend, x, c.hist(x))
    requires forall i | 0 <= i < |pend| :: !Covered(c.reqs, pend[i].page) && pend[i].page != p
    ensures RestOk(c', pend)
  {
    forall x ensures Covered(c'.reqs, x) <==> Covered(c.reqs, x) || x == p {
      InsertedCover(c.reqs, p, c'.reqs[p], x);
    }
  }

  // A request for page p, which no other one covers, is inserted.
  lemma InsertParts(c: Core, p: nat, snap: nat, c': Core, pend: seq<Aux>)
    requires TreeOk(c) && Disjoint(c.reqs) && ReqsOk(c) && !Covered(c.reqs, p) && Inserted(c, p, snap, c')
    requires forall x | !Covered(c.reqs, x) && x != p :: LeftOver(pend, x, c.hist(x))
    requires forall i | 0 <= i < |pend| :: !Covered(c.reqs, pend[i].page) && pend[i].page != p
    requires DistinctPages(pend)
    ensures PartsOk(c', pend)
  {
    InsertDisjoint(c.reqs, p, c'.reqs[p]);
    LinkKeeps(c.tree, p);
    InsertReqs(c, p, snap, c');
    InsertRest(c, p, snap, c', pend);
  }

  lemma InsertDisjoint(reqs: map<nat, Wpa>, p: nat, w: Wpa)
    requires Disjoint(reqs) && !Covered(reqs, p) && |w.snaps| == 1
    ensures p !in reqs && Disjoint(reqs[p := w])
  {
    assert forall x | x in reqs :: !Covers(x, reqs[x], p);
  }

  lemma InsertLists(c: Core, p: nat, snap: nat, stage: Stage, h': Hist, extra: int)
    requires ListsOk(c, {}, extra) && p !in c.reqs && !stage.Sent?
    ensures ListsOk(Insert(c, p, snap, stage).(hist := h'), if stage.Queued? then {p} else {}, extra) && p !in c.queue
  {
    SentStep(c.reqs, p, Wpa([snap], [], stage));
  }

  lemma {:induction false} ResendParts(c: Core, next: seq<Aux>, crop: nat, isize: nat, broken: set<nat>)
    requires PartsOk(c, next)
    ensures PartsOk(Resend(c, next, crop, isize, broken), [])
    decreases |next|
  {
    if next != [] {
      var a, c' := next[0], Insert(c, next[0].page, next[0].snap, Queued);
      NextPending(c, next);
      InsertParts(c, a.page, a.snap, c', next[1..]);
      SendParts(c', a.page, crop, isize, a.page in broken, next[1..]);
      ResendParts(Send(c', a.page, crop, isize, a.page in broken), next[1..], crop, isize, broken);
    }
  }

  lemma {:induction false} ResendLists(c: Core, next: seq<Aux>, crop: nat, isize: nat, broken: set<nat>, extra: int)
    requires ListsOk(c, {}, extra) && DistinctPages(next)
    requires forall i | 0 <= i < |next| :: next[i].page !in c.reqs
    ensures ListsOk(Resend(c, next, crop, isize, broken), {}, extra)
      && Resend(c, next, crop, isize, broken).queue == c.queue
    decreases |next|
  {
    if next != [] {
      var a, c' := next[0], Insert(c, next[0].page, next[0].snap, Queued);
      InsertLists(c, a.page, a.snap, Queued, c.hist, extra);
      SendLists(c', a.page, crop, isize, a.page in broken, extra);
      ResendLists(Send(c', a.page, crop, isize, a.page in broken), next[1..], crop, isize, broken, extra);
    }
  }

  lemma NextPending(c: Core, next: seq<Aux>)
    requires RestOk(c, next) && next != []
    ensures var a := next[0];
            !Covered(c.reqs, a.page) && Ended(c.hist(a.page), a.snap)
              && c.hist(a.page).lost < c.hist(a.page).newest == a.snap
    ensures forall x | !Covered(c.reqs, x) && x != next[0].page :: LeftOver(next[1..], x, c.hist(x))
    ensures forall i | 0 <= i < |next[1..]| :: !Covered(c.reqs, next[1..][i].page) && next[1..][i].page != next[0].page
    ensures DistinctPages(next[1..])
  {
    assert HasAux(next, next[0].page);
    assert LeftOver(next, next[0].page, c.hist(next[0].page));
    forall x | x != next[0].page ensures HasAux(next[1..], x) == HasAux(next, x) {
      assert forall i | 0 <= i < |next[1..]| :: next[1..][i] == next[i + 1];
      if i :| 0 <= i < |next| && next[i].page == x {
        assert next[1..][i - 1].page == x;
      }
    }
  }

  // ------------------------------------------------ ending

  lemma EndPages(r: nat, w: Wpa, h: Hist, p: nat)
    requires ReqOk(r, w, h) && w.stage.Sent? && Covers(r, w, p)
    ensures LeftOver(w.next, p, EndHist(h, r, w)(p))
  {
    assert PageOk(r, w, p, h(p));
    if HasAux(w.next, p) {
      var i :| 0 <= i < |w.next| && w.next[i].page == p;
      AuxSnapAt(w.next, p, 0, i);
      AuxSnapAt(w.next, p, w.snaps[p - r], i);
    }
  }

  lemma UnlinkParts(c: Core, r: nat)
    requires PartsOk(c, []) && r in c.reqs && c.reqs[r].stage.Sent?
    ensures PartsOk(Unlinked(c, r), c.reqs[r].next)
  {
    var w, c' := c.reqs[r], Unlinked(c, r);
    assert ReqOk(r, w, c.hist);
    forall p | !Covered(c.reqs, p) || Covers(r, w, p) ensures LeftOver(w.next, p, c'.hist(p)) {
      if Covers(r, w, p) {
        EndPages(r, w, c.hist, p);
      } else {
        assert LeftOver([], p, c.hist(p));
        assert forall i | 0 <= i < |w.next| :: Covered(c.reqs, w.next[i].page);
      }
    }
    RemoveKeeps(c, r, c', w.next);
  }

  lemma ResentParts(u: Core, next: seq<Aux>, crop: nat, isize: nat, broken: set<nat>, c': Core)
    requires PartsOk(u, next)
    requires var sent := Resend(u, next, crop, isize, broken);
      c'.tree == sent.tree && c'.reqs == sent.reqs && c'.hist == sent.hist
    ensures PartsOk(c', [])
  {
    ResendParts(u, next, crop, isize, broken);
    SameParts(Resend(u, next, crop, isize, broken), c', []);
  }

  lemma EndFrom(c: Core, r: nat, isize: nat, broken: set<nat>, u: Core)
    requires r in c.reqs && c.reqs[r].stage.Sent? && u == Unlinked(c, r) && PartsOk(u, c.reqs[r].next)
    ensures PartsOk(End(c, r, isize, broken), [])
  {
    var w := c.reqs[r];
    ResentParts(u, w.next, r * PAGE_SIZE + w.stage.size, isize, broken, End(c, r, isize, broken));
  }

  lemma EndParts(c: Core, r: nat, isize: nat, broken: set<nat>)
    requires PartsOk(c, []) && r in c.reqs && c.reqs[r].stage.Sent?
    ensures PartsOk(End(c, r, isize, broken), [])
  {
    UnlinkParts(c, r);
    EndFrom(c, r, isize, broken, Unlinked(c, r));
  }

  // An auxiliary request is not in the tree once its own request is erased: tree_insert finds no conflict.
  lemma NextFree(c: Core, r: nat, i: nat)
    requires Disjoint(c.reqs) && r in c.reqs && ChainOk(r, c.reqs[r]) && i < |c.reqs[r].next|
    ensures !Covered(c.reqs - {r}, c.reqs[r].next[i].page) && c.reqs[r].next[i].page !in c.reqs - {r}
  {
    var p := c.reqs[r].next[i].page;
    ErasedCover(c.reqs, r, p);
    assert p in c.reqs - {r} ==> Covers(p, (c.reqs - {r})[p], p);
  }

  lemma RebiasLists(c: Core, c': Core, d: int, extra: int)
    requires ListsOk(c, {}, extra) && c'.reqs == c.reqs && c'.queue == c.queue && c'.writectr == c.writectr + d
    ensures ListsOk(c', {}, extra + d)
  {
  }

  lemma UnlinkLists(c: Core, r: nat, extra: int)
    requires ListsOk(c, {}, extra) && r in c.reqs && c.reqs[r].stage.Sent? && Disjoint(c.reqs) && ChainOk(r, c.reqs[r])
    ensures ListsOk(Unlinked(c, r), {}, extra + 1)
    ensures forall i | 0 <= i < |c.reqs[r].next| :: c.reqs[r].next[i].page !in Unlinked(c, r).reqs
  {
    SentErased(c.reqs, r);
    forall i | 0 <= i < |c.reqs[r].next| ensures c.reqs[r].next[i].page !in Unlinked(c, r).reqs {
      NextFree(c, r, i);
    }
  }

  lemma EndLists(c: Core, r: nat, isize: nat, broken: set<nat>, extra: int)
    requires ListsOk(c, {}, extra) && r in c.reqs && c.reqs[r].stage.Sent? && Disjoint(c.reqs) && ChainOk(r, c.reqs[r])
    ensures ListsOk(End(c, r, isize, broken), {}, extra) && End(c, r, isize, broken).queue == c.queue
  {
    UnlinkLists(c, r, extra);
    ResendAllLists(c, Unlinked(c, r), r, isize, broken, extra);
  }

  lemma ResendAllLists(c: Core, u: Core, r: nat, isize: nat, broken: set<nat>, extra: int)
    requires r in c.reqs && c.reqs[r].stage.Sent? && u == Unlinked(c, r) && ListsOk(u, {}, extra + 1)
    requires forall i | 0 <= i < |c.reqs[r].next| :: c.reqs[r].next[i].page !in u.reqs
    requires DistinctPages(c.reqs[r].next)
    ensures ListsOk(End(c, r, isize, broken), {}, extra) && End(c, r, isize, broken).queue == u.queue
  {
    var w := c.reqs[r];
    var c' := Resend(u, w.next, r * PAGE_SIZE + w.stage.size, isize, broken);
    ResendLists(u, w.next, r * PAGE_SIZE + w.stage.size, isize, broken, extra + 1);
    RebiasLists(c', End(c, r, isize, broken), -1, extra + 1);
  }

  lemma EndKeeps(c: Core, r: nat, isize: nat, broken: set<nat>, extra: int)
    requires CoreInv(c, [], {}, extra) && r in c.reqs && c.reqs[r].stage.Sent?
    ensures CoreInv(End(c, r, isize, broken), [], {}, extra) && End(c, r, isize, broken).queue == c.queue
  {
    assert ReqOk(r, c.reqs[r], c.hist);
    EndParts(c, r, isize, broken);
    EndLists(c, r, isize, broken, extra);
  }

  lemma RebiasKeeps(c: Core, c': Core, d: int, extra: int)
    requires CoreInv(c, [], {}, extra) && c' == c.(writectr := c.writectr + d)
    ensures CoreInv(c', [], {}, extra + d)
  {
    SameParts(c, c', []);
    RebiasLists(c, c', d, extra);
  }

  // ------------------------------------------------ collecting

  lemma GrowDisjoint(reqs: map<nat, Wpa>, r: nat, w: Wpa, p: nat)
    requires Disjoint(reqs) && r in reqs && p == r + |reqs[r].snaps| && !Covered(reqs, p)
      && |w.snaps| == |reqs[r].snaps| + 1
    ensures Disjoint(reqs[r := w])
    ensures forall x :: Covered(reqs[r := w], x) <==> Covered(reqs, x) || x == p
  {
    assert forall x | x in reqs :: !Covers(x, reqs[x], p);
    var reqs' := reqs[r := w];
    forall x ensures Covered(reqs', x) <==> Covered(reqs, x) || x == p {
      if y :| y in reqs && Covers(y, reqs[y], x) {
        assert Covers(y, reqs'[y], x);
      }
      if x == p {
        assert Covers(r, reqs'[r], x);
      }
      if y :| y in reqs' && Covers(y, reqs'[y], x) {
        assert x == p || Covers(y, reqs[y], x);
      }
    }
  }

  lemma GrowPages(r: nat, w: Wpa, h: Hist, p: nat)
    requires ReqOk(r, w, h) && p == r + |w.snaps| && Settled(h(p)) && w.stage.Building?
    ensures ReqOk(r, w.(snaps := w.snaps + [h(p).newest + 1]), Noted(h, p))
  {
    var w', h' := w.(snaps := w.snaps + [h(p).newest + 1]), Noted(h, p);
    assert !HasAux(w.next, p);
    AuxSnapNone(w.next, p, h(p).newest + 1);
    forall x | Covers(r, w', x) ensures PageOk(r, w', x, h'(x)) {
      if x != p {
        assert PageOk(r, w, x, h(x));
      }
    }
  }

  ghost predicate Grown(c: Core, r: nat, p: nat, c': Core) {
    && r in c.reqs && r in c'.reqs && c'.tree == c.tree && c'.reqs == c.reqs[r := c'.reqs[r]]
    && p == r + |c.reqs[r].snaps| && |c'.reqs[r].snaps| == |c.reqs[r].snaps| + 1
    && forall x | x != p :: c'.hist(x) == c.hist(x)
  }

  lemma GrownKeeps(c: Core, r: nat, p: nat, c': Core)
    requires PartsOk(c, []) && Grown(c, r, p, c') && !Covered(c.reqs, p) && ReqOk(r, c'.reqs[r], c'.hist)
    ensures PartsOk(c', [])
  {
    GrowDisjoint(c.reqs, r, c'.reqs[r], p);
    forall x | x in c.reqs && x != r ensures ReqOk(x, c.reqs[x], c'.hist) {
      assert !Covers(x, c.reqs[x], p);
      Unmoved(x, c.reqs[x], c.hist, c'.hist);
    }
    assert c'.reqs.Keys == c.reqs.Keys;
  }

  lemma GrowReq(c: Core, r: nat, p: nat)
    requires ReqsOk(c) && RestOk(c, []) && r in c.reqs && c.reqs[r].stage.Building?
    requires p == r + |c.reqs[r].snaps| && !Covered(c.reqs, p)
    ensures ReqOk(r, Grow(c, r, p).reqs[r], Grow(c, r, p).hist)
  {
    assert LeftOver([], p, c.hist(p));
    GrowPages(r, c.reqs[r], c.hist, p);
  }

  lemma GrowGrown(c: Core, r: nat, p: nat)
    requires r in c.reqs && p == r + |c.reqs[r].snaps|
    ensures Grown(c, r, p, Grow(c, r, p))
  {
  }

  lemma GrowParts(c: Core, r: nat, p: nat)
    requires PartsOk(c, []) && r in c.reqs && c.reqs[r].stage.Building?
    requires p == r + |c.reqs[r].snaps| && !Covered(c.reqs, p)
    ensures PartsOk(Grow(c, r, p), [])
  {
    GrowReq(c, r, p);
    GrowGrown(c, r, p);
    GrownKeeps(c, r, p, Grow(c, r, p));
  }

  // The list and the counter do not see a change of a request that is not on it.
  lemma SameLists(c: Core, r: nat, w: Wpa, h': Hist, extra: int)
    requires ListsOk(c, {}, extra) && r in c.reqs && w.stage == c.reqs[r].stage
    ensures ListsOk(c.(reqs := c.reqs[r := w], hist := h'), {}, extra)
  {
    SentStep(c.reqs, r, w);
  }

  lemma GrowKeeps(c: Core, r: nat, p: nat, extra: int)
    requires CoreInv(c, [], {}, extra) && r in c.reqs && c.reqs[r].stage.Building?
    requires p == r + |c.reqs[r].snaps| && !Covered(c.reqs, p)
    ensures CoreInv(Grow(c, r, p), [], {}, extra)
  {
    GrowParts(c, r, p);
    SameLists(c, r, Grow(c, r, p).reqs[r], Noted(c.hist, p), extra);
  }

  lemma AddNewKeeps(c: Core, p: nat, stage: Stage, extra: int)
    requires CoreInv(c, [], {}, extra) && !Covered(c.reqs, p) && !stage.Sent?
    ensures CoreInv(AddNew(c, p, stage), [], if stage.Queued? then {p} else {}, extra)
    ensures p !in c.reqs && p !in c.queue
  {
    AddNewParts(c, p, stage);
    InsertLists(c, p, c.hist(p).newest + 1, stage, Noted(c.hist, p), extra);
  }

  lemma AddNewParts(c: Core, p: nat, stage: Stage)
    requires PartsOk(c, []) && !Covered(c.reqs, p) && !stage.Sent?
    ensures p !in c.reqs && PartsOk(AddNew(c, p, stage), [])
  {
    assert LeftOver([], p, c.hist(p));
    InsertDisjoint(c.reqs, p, Wpa([0], [], stage));
    InsertParts(c, p, c.hist(p).newest + 1, AddNew(c, p, stage), []);
  }

  lemma AuxPages(r: nat, w: Wpa, w': Wpa, h: Hist, h': Hist, p: nat)
    requires ReqOk(r, w, h) && Covers(r, w, p) && h' == Noted(h, p)
    requires w' == w.(next := w'.next) && w'.next == Chain(w.next, p, h(p).newest + 1)
    ensures ReqOk(r, w', h')
  {
    ChainKeeps(w.next, p, h(p).newest + 1);
    forall x | Covers(r, w', x) ensures PageOk(r, w', x, h'(x)) {
      assert PageOk(r, w, x, h(x));
    }
  }

  lemma AuxReq(c: Core, r: nat, p: nat)
    requires ReqsOk(c) && r in c.reqs && Covers(r, c.reqs[r], p)
    ensures ReqOk(r, AddAux(c, r, p).reqs[r], AddAux(c, r, p).hist)
  {
    AuxPages(r, c.reqs[r], AddAux(c, r, p).reqs[r], c.hist, AddAux(c, r, p).hist, p);
  }

  lemma AuxReplaced(c: Core, r: nat, p: nat)
    requires r in c.reqs && Covers(r, c.reqs[r], p)
    ensures Replaced(c, r, AddAux(c, r, p))
  {
  }

  lemma AddAuxParts(c: Core, r: nat, p: nat)
    requires PartsOk(c, []) && r in c.reqs && Covers(r, c.reqs[r], p)
    ensures PartsOk(AddAux(c, r, p), [])
  {
    AuxReq(c, r, p);
    AuxReplaced(c, r, p);
    ReplaceKeeps(c, r, AddAux(c, r, p), []);
  }

  lemma AddAuxKeeps(c: Core, r: nat, p: nat, extra: int)
    requires CoreInv(c, [], {}, extra) && r in c.reqs && Covers(r, c.reqs[r], p)
    ensures CoreInv(AddAux(c, r, p), [], {}, extra)
  {
    AddAuxParts(c, r, p);
    SameLists(c, r, AddAux(c, r, p).reqs[r], Noted(c.hist, p), extra);
  }

  lemma EnqueueParts(c: Core, r: nat)
    requires PartsOk(c, []) && r in c.reqs && !c.reqs[r].stage.Sent?
    ensures PartsOk(Enqueue(c, r), [])
  {
    var w := c.reqs[r].(stage := Queued);
    assert ReqOk(r, c.reqs[r], c.hist);
    assert forall p | Covers(r, w, p) :: PageOk(r, c.reqs[r], p, c.hist(p));
    ReplaceKeeps(c, r, Enqueue(c, r), []);
  }

  lemma EnqueueLists(c: Core, r: nat, out: set<nat>, extra: int)
    requires ListsOk(c, out, extra) && r in c.reqs && !c.reqs[r].stage.Sent? && r !in c.queue && out <= {r}
    ensures ListsOk(Enqueue(c, r), {}, extra)
  {
    SentStep(c.reqs, r, c.reqs[r].(stage := Queued));
  }

  lemma EnqueueKeeps(c: Core, r: nat, out: set<nat>, extra: int)
    requires CoreInv(c, [], out, extra) && r in c.reqs && !c.reqs[r].stage.Sent? && r !in c.queue && out <= {r}
    ensures CoreInv(Enqueue(c, r), [], {}, extra)
  {
    EnqueueParts(c, r);
    EnqueueLists(c, r, out, extra);
  }
}
