// The writeback functions of file.c and dir.c on the fields of struct fuse_inode.
module WritebackInode {
  import opened Basics
  import opened WritebackTree
  import opened Writeback
  import opened WritebackInvariant
  import opened WritebackKeeps

  datatype Found = Nothing | At(first: nat)

  // Page p is part of a request being filled, queued or in flight, or of an auxiliary request.
  ghost predicate UnderWriteback(reqs: map<nat, Wpa>, p: nat) {
    exists r | r in reqs :: Covers(r, reqs[r], p) || HasAux(reqs[r].next, p)
  }

  predicate Overlaps(r: nat, w: Wpa, from: nat, to: nat) { from < r + |w.snaps| && r <= to }

  lemma OverlapPage(r: nat, w: Wpa, from: nat, to: nat)
    requires from <= to && |w.snaps| >= 1
    ensures Overlaps(r, w, from, to) <==> exists p | from <= p <= to :: Covers(r, w, p)
  {
    if Overlaps(r, w, from, to) {
      var p := if r <= from then from else r;
      assert Covers(r, w, p);
    }
  }

  // A page is under writeback exactly if a request in the tree covers it.
  lemma CoveredAlone(c: Core, p: nat)
    requires ReqsOk(c)
    ensures UnderWriteback(c.reqs, p) <==> Covered(c.reqs, p)
  {
    if r :| r in c.reqs && HasAux(c.reqs[r].next, p) {
      assert ReqOk(r, c.reqs[r], c.hist);
      assert Covers(r, c.reqs[r], p);
    }
  }

  lemma HitMeans(c: Core, from: nat, to: nat)
    requires ReqsOk(c) && Disjoint(c.reqs) && from <= to
    ensures (exists p | from <= p <= to :: UnderWriteback(c.reqs, p))
      <==> exists r | r in c.reqs :: Overlaps(r, c.reqs[r], from, to)
  {
    if p :| from <= p <= to && UnderWriteback(c.reqs, p) {
      CoveredAlone(c, p);
      var r :| r in c.reqs && Covers(r, c.reqs[r], p);
      assert Overlaps(r, c.reqs[r], from, to);
    }
    if r :| r in c.reqs && Overlaps(r, c.reqs[r], from, to) {
      OverlapPage(r, c.reqs[r], from, to);
      var p :| from <= p <= to && Covers(r, c.reqs[r], p);
      assert UnderWriteback(c.reqs, p);
    }
  }

  // Where page p stands in a chain, the chain takes a new snapshot of it.
  lemma {:induction false} SwapAt(next: seq<Aux>, p: nat, snap: nat, i: nat)
    requires i < |next| && next[i].page == p && forall j | 0 <= j < i :: next[j].page != p
    ensures SwapIn(next, p, snap) == next[i := Aux(p, snap)]
  {
    if i > 0 {
      SwapAt(next[1..], p, snap, i - 1);
    }
  }

  // One turn of fuse_flush_writepages
  lemma FlushTurn(c: Core, crop: nat, broken: set<nat>, extra: int)
    requires ListsOk(c, {}, extra) && c.queue != [] && c.writectr >= 0
    ensures c.queue[0] in c.reqs
    ensures var c' := Send(Pop(c), c.queue[0], crop, crop, c.queue[0] in broken);
            ListsOk(c', {}, extra) && c'.queue == c.queue[1..] && Flush(c, crop, broken) == Flush(c', crop, broken)
  {
    PopLists(c, extra);
    SendLists(Pop(c), c.queue[0], crop, crop, c.queue[0] in broken, extra);
  }

  class Inode {
    var writepages: Tree
    var reqs: map<nat, Wpa>
    var queued: seq<nat>
    var writectr: int
    ghost var hist: Hist

    ghost function Now(): Core
      reads this
    {
      Core(writepages, reqs, queued, writectr, hist)
    }

    // fuse_find_writeback and fuse_range_is_writeback: a hit exactly if a page of the range is under writeback
    method FindWriteback(from: nat, to: nat) returns (hit: Found)
      requires PartsOk(Now(), []) && from <= to
      ensures hit.At? <==> exists p | from <= p <= to :: UnderWriteback(reqs, p)
      ensures hit.At? ==> hit.first in reqs && Overlaps(hit.first, reqs[hit.first], from, to)
    {
      HitMeans(Now(), from, to);
      var n := writepages;
      while n.Node?
        invariant Bst(n) && Elems(n) <= reqs.Keys
        invariant forall r | r in reqs && Overlaps(r, reqs[r], from, to) :: r in Elems(n)
        decreases n
      {
        var curr := n.first;
        assert curr in Elems(n);
        if from >= curr + |reqs[curr].snaps| {
          n := n.right;
        } else if to < curr {
          n := n.left;
        } else {
          return At(curr);
        }
      }
      return Nothing;
    }

    // fuse_insert_writeback: link the request of w's pages from first on, or return one that it overlaps; it is linked
    // exactly if no other request covers any of its pages.
    method InsertWriteback(first: nat, w: Wpa) returns (curr: Found)
      requires PartsOk(Now(), []) && |w.snaps| >= 1
      modifies this`writepages, this`reqs
      ensures curr.Nothing? <==> forall p | Covers(first, w, p) :: !Covered(old(reqs), p)
      ensures curr.Nothing? ==> writepages == Link(old(writepages), first) && reqs == old(reqs)[first := w]
      ensures curr.At? ==> writepages == old(writepages) && reqs == old(reqs)
      ensures curr.At? ==> curr.first in reqs && Overlaps(curr.first, reqs[curr.first], first, first + |w.snaps| - 1)
    {
      var idx_to := first + |w.snaps| - 1;
      curr := FindWriteback(first, idx_to);
      forall p ensures UnderWriteback(reqs, p) <==> Covered(reqs, p) {
        CoveredAlone(Now(), p);
      }
      assert curr.Nothing? <==> forall p | Covers(first, w, p) :: !Covered(reqs, p);
      if curr.Nothing? {
        writepages, reqs := Link(writepages, first), reqs[first := w];
      }
    }

    // fuse_send_writepage
    method SendWritepage(r: nat, crop: nat, ghost isize: nat, broken: bool)
      requires r in reqs
      modifies this
      ensures Now() == Send(old(Now()), r, crop, isize, broken)
    {
      var w := reqs[r];
      writectr := writectr + 1;
      var dataSize := |w.snaps| * PAGE_SIZE;
      var size := 0;
      if r * PAGE_SIZE + dataSize <= crop {
        size := dataSize;
      } else if r * PAGE_SIZE < crop {
        size := crop - r * PAGE_SIZE;
      }
      assert (r + |w.snaps|) * PAGE_SIZE == r * PAGE_SIZE + dataSize;
      if size != 0 && !broken {
        hist := SendHist(hist, r, w, size, isize);
        reqs := reqs[r := w.(stage := Sent(size))];
      } else {
        writectr := writectr - 1;
        hist := DropHist(hist, r, w);
        writepages, reqs := Erase(writepages, r), reqs - {r};
      }
    }

    // The loop of fuse_flush_writepages
    method FlushQueue(crop: nat, broken: set<nat>, ghost extra: int)
      requires ListsOk(Now(), {}, extra)
      modifies this
      ensures Now() == Flush(old(Now()), crop, broken)
    {
      while writectr >= 0 && queued != []
        invariant ListsOk(Now(), {}, extra) && Flush(Now(), crop, broken) == Flush(old(Now()), crop, broken)
        decreases |queued|
      {
        FlushTurn(Now(), crop, broken, extra);
        var r := queued[0];
        queued := queued[1..];
        SendWritepage(r, crop, crop, r in broken);
      }
    }

    // fuse_flush_writepages
    method FlushWritepages(crop: nat, broken: set<nat>, ghost extra: int)
      requires CoreInv(Now(), [], {}, extra)
      modifies this
      ensures Now() == Flush(old(Now()), crop, broken) && CoreInv(Now(), [], {}, extra)
      ensures writectr < 0 || queued == []
    {
      FlushKeeps(Now(), crop, broken, extra);
      FlushQueue(crop, broken, extra);
    }

    // fuse_writepage_end
    method WritepageEnd(r: nat, ghost isize: nat, broken: set<nat>)
      requires r in reqs && reqs[r].stage.Sent?
      modifies this
      ensures Now() == End(old(Now()), r, isize, broken)
    {
      var w := reqs[r];
      var next := w.next;
      hist := EndHist(hist, r, w);
      writepages, reqs := Erase(writepages, r), reqs - {r};
      var crop := r * PAGE_SIZE + w.stage.size;
      while next != []
        invariant Resend(Now(), next, crop, isize, broken) ==
          Resend(old(Unlinked(Now(), r)), w.next, crop, isize, broken)
        decreases |next|
      {
        var a := next[0];
        next := next[1..];
        writepages, reqs := Link(writepages, a.page), reqs[a.page := Wpa([a.snap], [], Queued)];
        SendWritepage(a.page, crop, isize, a.page in broken);
      }
      writectr := writectr - 1;
    }

    // The loop of fuse_writepage_add over the auxiliary requests of the request old_wpa
    method ChainPage(old_wpa: nat, p: nat, snap: nat)
      requires old_wpa in reqs
      modifies this`reqs
      ensures reqs == old(reqs)[old_wpa := old(reqs)[old_wpa].(next := Chain(old(reqs)[old_wpa].next, p, snap))]
    {
      var w := reqs[old_wpa];
      var i := 0;
      while i < |w.next| && w.next[i].page != p
        invariant 0 <= i <= |w.next| && forall j | 0 <= j < i :: w.next[j].page != p
      {
        i := i + 1;
      }
      if i < |w.next| {
        SwapAt(w.next, p, snap, i);
        reqs := reqs[old_wpa := w.(next := w.next[i := Aux(p, snap)])];
      } else {
        reqs := reqs[old_wpa := w.(next := [Aux(p, snap)] + w.next)];
      }
    }

    // fuse_writepage_add by thread t with a new snapshot of page p
    method WritepageAdd(p: nat, t: Tid, snap: nat) returns (added: bool, ghost onto: nat)
      requires PartsOk(Now(), []) && snap == hist(p).newest + 1
      modifies this
      ensures added <==> !old(Covered(reqs, p))
      ensures added ==> Now() == AddNew(old(Now()), p, Building(t))
      ensures !added ==> onto in old(reqs) && Covers(onto, old(reqs)[onto], p) && Now() == AddAux(old(Now()), onto, p)
    {
      var w := Wpa([snap], [], Building(t));
      var old_wpa := InsertWriteback(p, w);
      assert Covers(p, w, p) && forall x | Covers(p, w, x) :: x == p;
      added, onto := old_wpa.Nothing?, 0;
      hist := Noted(hist, p);
      if !added {
        onto := old_wpa.first;
        ChainPage(old_wpa.first, p, snap);
      }
    }

    // fuse_set_nowrite up to its wait
    method SetNowrite()
      requires CoreInv(Now(), [], {}, 0)
      modifies this`writectr
      ensures old(writectr) >= 0
      ensures writectr == old(writectr) + FUSE_NOWRITE && CoreInv(Now(), [], {}, FUSE_NOWRITE)
    {
      ghost var c := Now();
      writectr := writectr + FUSE_NOWRITE;
      RebiasKeeps(c, Now(), FUSE_NOWRITE, 0);
    }

    // fuse_release_nowrite
    method ReleaseNowrite(crop: nat, broken: set<nat>)
      requires CoreInv(Now(), [], {}, FUSE_NOWRITE) && writectr == FUSE_NOWRITE
      modifies this
      ensures Now() == Flush(old(Now().(writectr := 0)), crop, broken) && CoreInv(Now(), [], {}, 0) && queued == []
    {
      RebiasKeeps(Now(), Now().(writectr := 0), -FUSE_NOWRITE, FUSE_NOWRITE);
      writectr := 0;
      FlushWritepages(crop, broken, 0);
    }
  }
}
