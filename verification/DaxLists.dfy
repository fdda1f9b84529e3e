// The lists of dax.c as they are changed in place: the free and busy ranges of the connection, the sorted tree of an
// inode, and the loops that empty it.
module DaxLists {
  import opened Basics
  import opened DaxWindow
  import opened DaxSteps

  const FUSE_REMOVEMAPPING_MAX_ENTRY: nat := PAGE_SIZE / 16

  // ------------------------------------------------ dmap_removemapping_list

  function Flatten(batches: seq<seq<Rid>>): seq<Rid> {
    if batches == [] then [] else Flatten(batches[..|batches| - 1]) + batches[|batches| - 1]
  }

  predicate Fits(batches: seq<seq<Rid>>) { forall b | b in batches :: 1 <= |b| <= FUSE_REMOVEMAPPING_MAX_ENTRY }

  lemma FlattenStep(batches: seq<seq<Rid>>, b: seq<Rid>)
    ensures Flatten(batches + [b]) == Flatten(batches) + b
    ensures Fits(batches) && 1 <= |b| <= FUSE_REMOVEMAPPING_MAX_ENTRY ==> Fits(batches + [b])
  {
    assert (batches + [b])[..|batches|] == batches;
  }

  // One request per batch; request number fail, if there is one, is refused.  Every range is named exactly once, in
  // order, and no request names more than fit a page.
  method RemovemappingList(toRemove: seq<Rid>, fail: int) returns (sent: seq<seq<Rid>>, ok: bool)
    requires toRemove != []
    ensures Fits(sent)
    ensures if ok then Flatten(sent) == toRemove && !(0 <= fail < |sent|)
            else 0 <= fail == |sent| - 1 && Flatten(sent) <= toRemove
  {
    var num := |toRemove|;
    var nrAlloc := Min(num, FUSE_REMOVEMAPPING_MAX_ENTRY);
    var batch: seq<Rid> := [];
    sent := [];
    var k := 0;
    while k < |toRemove|
      invariant 0 <= k <= |toRemove| && num == |toRemove| - k
      invariant Flatten(sent) + batch == toRemove[..k]
      invariant |batch| < nrAlloc && (num == 0 ==> batch == [])
      invariant Fits(sent) && !(0 <= fail < |sent|)
    {
      ghost var done := Flatten(sent) + batch;
      batch := batch + [toRemove[k]];
      assert Flatten(sent) + batch == done + [toRemove[k]] == toRemove[..k + 1];
      k := k + 1;
      num := num - 1;
      if |batch| >= nrAlloc || num == 0 {
        FlattenStep(sent, batch);
        sent := sent + [batch];
        if fail == |sent| - 1 {
          return sent, false;
        }
        batch := [];
      }
    }
    return sent, true;
  }

  // ------------------------------------------------ the tree of an inode

  datatype Node = Node(start: nat, r: Rid)

  predicate Sorted(tree: seq<Node>) { forall i, j | 0 <= i < j < |tree| :: tree[i].start < tree[j].start }

  predicate Inside(n: Node, from: nat, last: nat) { from <= n.start <= last }

  function InRange(tree: seq<Node>, from: nat, last: nat): seq<Node> {
    if tree == [] then [] else (if Inside(tree[0], from, last) then [tree[0]] else []) + InRange(tree[1..], from, last)
  }

  function OutOfRange(tree: seq<Node>, from: nat, last: nat): seq<Node> {
    if tree == [] then []
    else (if Inside(tree[0], from, last) then [] else [tree[0]]) + OutOfRange(tree[1..], from, last)
  }

  // The ranges of nodes in the order in which list_add leaves them: last first
  function RangesReversed(nodes: seq<Node>): seq<Rid> {
    if nodes == [] then [] else RangesReversed(nodes[1..]) + [nodes[0].r]
  }

  lemma {:induction false} RangesMembers(nodes: seq<Node>, r: Rid)
    ensures r in RangesReversed(nodes) <==> exists k | 0 <= k < |nodes| :: nodes[k].r == r
    ensures |RangesReversed(nodes)| == |nodes|
  {
    if nodes != [] {
      RangesMembers(nodes[1..], r);
      assert forall k | 0 <= k < |nodes[1..]| :: nodes[1..][k] == nodes[k + 1];
      if k :| 0 <= k < |nodes| && nodes[k].r == r {
        assert k > 0 ==> nodes[1..][k - 1].r == r;
      }
    }
  }

  // Taking out the first node in range leaves the others, on both sides.
  lemma {:induction false} CutFirst(tree: seq<Node>, from: nat, last: nat, k: nat)
    requires k < |tree| && Inside(tree[k], from, last) && forall j | 0 <= j < k :: !Inside(tree[j], from, last)
    ensures InRange(tree, from, last) == [tree[k]] + InRange(tree[..k] + tree[k + 1..], from, last)
    ensures OutOfRange(tree, from, last) == OutOfRange(tree[..k] + tree[k + 1..], from, last)
  {
    if k == 0 {
      assert tree[..0] + tree[1..] == tree[1..];
    } else {
      CutFirst(tree[1..], from, last, k - 1);
      var cut := tree[..k] + tree[k + 1..];
      assert cut[0] == tree[0] && cut[1..] == tree[1..][..k - 1] + tree[1..][k..];
    }
  }

  lemma {:induction false} NoneInRange(tree: seq<Node>, from: nat, last: nat)
    requires forall j | 0 <= j < |tree| :: !Inside(tree[j], from, last)
    ensures InRange(tree, from, last) == [] && OutOfRange(tree, from, last) == tree
  {
    if tree != [] {
      NoneInRange(tree[1..], from, last);
    }
  }

  // A node is in range or out of it, and stays what it was.
  lemma {:induction false} RangeMembers(tree: seq<Node>, from: nat, last: nat, n: Node)
    ensures n in InRange(tree, from, last) <==> n in tree && Inside(n, from, last)
    ensures n in OutOfRange(tree, from, last) <==> n in tree && !Inside(n, from, last)
    ensures |InRange(tree, from, last)| + |OutOfRange(tree, from, last)| == |tree|
  {
    if tree != [] {
      RangeMembers(tree[1..], from, last, n);
      assert tree == [tree[0]] + tree[1..];
    }
  }

  class ConnDax {
    var freeRanges: seq<Rid>
    var nrFreeRanges: int
    var busyRanges: seq<Rid>
    var nrBusyRanges: int

    function Lists(): Fcd
      reads this
    {
      Fcd(freeRanges, nrFreeRanges, busyRanges, nrBusyRanges)
    }

    ghost predicate Valid()
      reads this
    {
      && Distinct(freeRanges) && Distinct(busyRanges) && nrFreeRanges == |freeRanges| && nrBusyRanges == |busyRanges|
      && forall r | r in freeRanges :: r !in busyRanges
    }

    // alloc_dax_mapping; false when no range is free
    method AllocMapping() returns (found: bool, dmap: Rid)
      requires Valid()
      modifies this`freeRanges, this`nrFreeRanges
      ensures Valid() && (found <==> old(freeRanges) != [])
      ensures found ==> [dmap] + freeRanges == old(freeRanges) && dmap !in freeRanges && dmap !in busyRanges
      ensures !found ==> Lists() == old(Lists())
    {
      found, dmap := freeRanges != [], 0;
      if found {
        Front(freeRanges);
        dmap := freeRanges[0];
        freeRanges, nrFreeRanges := freeRanges[1..], nrFreeRanges - 1;
      }
    }

    // dmap_reinit_add_to_free_pool
    method ReinitAddToFreePool(dmap: Rid)
      requires Valid() && dmap in busyRanges
      modifies this
      ensures Valid()
      ensures Lists() ==
        Fcd(old(freeRanges) + [dmap], old(nrFreeRanges) + 1, Remove(old(busyRanges), dmap), old(nrBusyRanges) - 1)
    {
      RemoveDistinct(busyRanges, dmap);
      Append(freeRanges, dmap);
      busyRanges, nrBusyRanges := Remove(busyRanges, dmap), nrBusyRanges - 1;
      freeRanges, nrFreeRanges := freeRanges + [dmap], nrFreeRanges + 1;
    }

    // The last loop of inode_reclaim_dmap_range
    method FreeAll(toRemove: seq<Rid>)
      requires Valid() && Distinct(toRemove) && forall r | r in toRemove :: r in busyRanges
      modifies this
      ensures Valid()
      ensures Lists() == Fcd(old(freeRanges) + toRemove, old(nrFreeRanges) + |toRemove|,
                             RemoveAll(old(busyRanges), toRemove), old(nrBusyRanges) - |toRemove|)
    {
      var k := 0;
      while k < |toRemove|
        invariant 0 <= k <= |toRemove| && Valid()
        invariant forall j | k <= j < |toRemove| :: toRemove[j] in busyRanges
        invariant RemoveAll(busyRanges, toRemove[k..]) == RemoveAll(old(busyRanges), toRemove)
        invariant freeRanges == old(freeRanges) + toRemove[..k]
        invariant nrFreeRanges == old(nrFreeRanges) + k && nrBusyRanges == old(nrBusyRanges) - k
      {
        RemoveDistinct(busyRanges, toRemove[k]);
        assert toRemove[k..][1..] == toRemove[k + 1..];
        ReinitAddToFreePool(toRemove[k]);
        assert toRemove[..k + 1] == toRemove[..k] + [toRemove[k]];
        k := k + 1;
      }
      assert toRemove[..k] == toRemove;
    }
  }

  class InodeDax {
    var tree: seq<Node>
    var nr: int

    ghost predicate Valid()
      reads this
    {
      Sorted(tree) && nr == |tree|
    }

    // interval_tree_iter_first: the leftmost node in range, or the number of nodes
    method IterFirst(from: nat, last: nat) returns (k: nat)
      ensures k <= |tree| && (forall j | 0 <= j < k :: !Inside(tree[j], from, last))
      ensures k < |tree| ==> Inside(tree[k], from, last)
    {
      k := 0;
      while k < |tree| && !(from <= tree[k].start <= last)
        invariant k <= |tree| && forall j | 0 <= j < k :: !Inside(tree[j], from, last)
      {
        k := k + 1;
      }
    }

    // The first loop of inode_reclaim_dmap_range: exactly the nodes in range leave the tree, onto a private list.
    method TakeRange(from: nat, last: nat) returns (toRemove: seq<Rid>)
      requires Valid()
      modifies this
      ensures Valid() && tree == OutOfRange(old(tree), from, last)
      ensures toRemove == RangesReversed(InRange(old(tree), from, last))
    {
      toRemove := [];
      ghost var taken: seq<Node> := [];
      var k := IterFirst(from, last);
      var num := 0;
      while k < |tree|
        invariant 0 <= k <= |tree| && (k < |tree| ==> Inside(tree[k], from, last))
        invariant forall j | 0 <= j < k :: !Inside(tree[j], from, last)
        invariant Sorted(tree) && |tree| + num == |old(tree)| && nr == old(nr)
        invariant taken + InRange(tree, from, last) == InRange(old(tree), from, last)
        invariant OutOfRange(tree, from, last) == OutOfRange(old(tree), from, last)
        invariant toRemove == RangesReversed(taken)
        decreases |tree|
      {
        CutFirst(tree, from, last, k);
        ReversedStep(taken, tree[k]);
        taken := taken + [tree[k]];
        toRemove := [tree[k].r] + toRemove;
        tree := tree[..k] + tree[k + 1..];
        num := num + 1;
        k := IterFirst(from, last);
      }
      NoneInRange(tree, from, last);
      assert taken + [] == taken;
      nr := nr - num;
    }

    // inode_reclaim_dmap_range on an inode whose ranges are all busy: exactly those in range become free.
    method ReclaimRange(fcd: ConnDax, from: nat, last: nat, fail: int) returns (sent: seq<seq<Rid>>)
      requires Valid() && fcd.Valid() && (forall n | n in tree :: n.r in fcd.busyRanges)
      requires DistinctRanges(tree)
      modifies this, fcd
      ensures Valid() && fcd.Valid() && tree == OutOfRange(old(tree), from, last)
      ensures var list := RangesReversed(InRange(old(tree), from, last));
              fcd.Lists() == Fcd(old(fcd.freeRanges) + list, old(fcd.nrFreeRanges) + |list|,
                                 RemoveAll(old(fcd.busyRanges), list), old(fcd.nrBusyRanges) - |list|)
    {
      TakenBusy(tree, from, last, fcd.busyRanges);
      var toRemove := TakeRange(from, last);
      sent := [];
      if toRemove != [] {
        var ok;
        sent, ok := RemovemappingList(toRemove, fail);
        fcd.FreeAll(toRemove);
      }
    }
  }

  lemma {:induction false} ReversedStep(nodes: seq<Node>, n: Node)
    ensures RangesReversed(nodes + [n]) == [n.r] + RangesReversed(nodes)
  {
    if nodes == [] {
      assert [n][1..] == [];
    } else {
      ReversedStep(nodes[1..], n);
      assert (nodes + [n])[1..] == nodes[1..] + [n];
    }
  }

  predicate DistinctRanges(nodes: seq<Node>) { forall i, j | 0 <= i < j < |nodes| :: nodes[i].r != nodes[j].r }

  lemma {:induction false} DistinctInRange(tree: seq<Node>, from: nat, last: nat)
    requires DistinctRanges(tree)
    ensures DistinctRanges(InRange(tree, from, last))
  {
    if tree != [] {
      DistinctInRange(tree[1..], from, last);
      forall k | 0 <= k < |InRange(tree[1..], from, last)| ensures InRange(tree[1..], from, last)[k].r != tree[0].r {
        RangeMembers(tree[1..], from, last, InRange(tree[1..], from, last)[k]);
      }
    }
  }

  lemma {:induction false} DistinctReversed(nodes: seq<Node>)
    requires DistinctRanges(nodes)
    ensures Distinct(RangesReversed(nodes))
  {
    if nodes != [] {
      DistinctReversed(nodes[1..]);
      RangesMembers(nodes[1..], nodes[0].r);
      Append(RangesReversed(nodes[1..]), nodes[0].r);
    }
  }

  lemma TakenBusy(tree: seq<Node>, from: nat, last: nat, busy: seq<Rid>)
    requires DistinctRanges(tree) && forall n | n in tree :: n.r in busy
    ensures var list := RangesReversed(InRange(tree, from, last)); Distinct(list) && forall r | r in list :: r in busy
  {
    var nodes := InRange(tree, from, last);
    DistinctInRange(tree, from, last);
    DistinctReversed(nodes);
    forall r | r in RangesReversed(nodes) ensures r in busy {
      RangesMembers(nodes, r);
      var k :| 0 <= k < |nodes| && nodes[k].r == r;
      RangeMembers(tree, from, last, nodes[k]);
    }
  }
}
