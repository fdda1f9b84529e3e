// The forget list of struct fuse_iqueue in dev.c, and how reads alternate between forgets and ordinary requests.
module ForgetQueue {
  import opened Basics

  // struct fuse_forget_link
  class ForgetLink {
    var nodeid: nat
    var nlookup: nat
    var next: ForgetLink?

    constructor (nodeid: nat, nlookup: nat)
      ensures this.nodeid == nodeid && this.nlookup == nlookup && next == null
    {
      this.nodeid, this.nlookup, next := nodeid, nlookup, null;
    }
  }

  function Follower(links: seq<ForgetLink>, i: nat): ForgetLink? { if i + 1 < |links| then links[i + 1] else null }

  // Each link is followed by the next one, the last by none.
  ghost predicate Linked(links: seq<ForgetLink>)
    reads set l | l in links
  {
    forall i | 0 <= i < |links| :: links[i].next == Follower(links, i)
  }

  // A list cut in two
  lemma LinkedParts(all: seq<ForgetLink>, count: nat)
    requires count <= |all| && (count > 0 ==> all[count - 1].next == null)
    requires forall i | 0 <= i < |all| && i + 1 != count :: all[i].next == Follower(all, i)
    ensures Linked(all[..count]) && Linked(all[count..])
  {
    forall i | 0 <= i < count ensures all[..count][i].next == Follower(all[..count], i) {
      assert all[..count][i] == all[i];
    }
    forall i | 0 <= i < |all| - count ensures all[count..][i].next == Follower(all[count..], i) {
      assert all[count..][i] == all[count + i];
    }
  }

  lemma SuffixDistinct(all: seq<ForgetLink>, count: nat)
    requires Distinct(all) && count <= |all|
    ensures Distinct(all[count..]) && forall l | l in all[count..] :: l in all
  {
  }

  lemma OnlyThere(all: seq<ForgetLink>, count: nat)
    requires Distinct(all) && count <= |all|
    ensures count > 0 ==> forall i | 0 <= i < |all| && i + 1 != count :: all[i] != all[count - 1]
  {
  }

  class ForgetList {
    const head: ForgetLink            // forget_list_head, which holds no forget
    var tail: ForgetLink              // forget_list_tail
    ghost var queue: seq<ForgetLink>  // the forgets in the list, oldest first

    ghost predicate Valid()
      reads this, head, set l | l in queue
    {
      && head !in queue && Distinct(queue) && Linked(queue)
      && head.next == (if queue == [] then null else queue[0])
      && tail == (if queue == [] then head else queue[|queue| - 1])
    }

    constructor ()
      ensures Valid() && queue == [] && fresh(head)
    {
      var h := new ForgetLink(0, 0);
      head, tail, queue := h, h, [];
    }

    // forget_pending
    method Pending() returns (pending: bool)
      requires Valid()
      ensures pending <==> queue != []
    {
      pending := head.next != null;
    }

    // fuse_queue_forget on a connected queue
    method Append(forget: ForgetLink)
      requires Valid() && forget != head && forget !in queue && forget.next == null
      modifies this, tail
      ensures Valid() && queue == old(queue) + [forget]
    {
      tail.next := forget;
      tail := forget;
      queue := queue + [forget];
    }

    // The loop of fuse_dequeue_forget: newhead is the first link that stays, last the one before it.  At first newhead
    // points to the local variable head.
    method Walk(max: nat) returns (last: ForgetLink?, newhead: ForgetLink?, count: nat)
      requires Valid()
      ensures count == Min(max, |queue|) && newhead == (if count < |queue| then queue[count] else null)
      ensures last == if count == 0 then null else queue[count - 1]
    {
      last, newhead, count := null, head.next, 0;
      while newhead != null && count < max
        invariant Valid()
        invariant count <= max && count <= |queue| && newhead == (if count < |queue| then queue[count] else null)
        invariant last == if count == 0 then null else queue[count - 1]
        decreases |queue| - count
      {
        last, newhead := newhead, newhead.next;
        count := count + 1;
      }
    }

    // fuse_dequeue_forget: exactly the oldest forgets, as a list of their own; what is left begins with the next one,
    // and new forgets go behind it.
    method Dequeue(max: nat) returns (first: ForgetLink?, count: nat, ghost got: seq<ForgetLink>)
      requires Valid()
      modifies this, head, set l | l in queue
      ensures Valid() && count == Min(max, |old(queue)|)
      ensures got == old(queue)[..count] && queue == old(queue)[count..]
      ensures Linked(got) && (if got == [] then first == null else first == got[0])
      ensures forall l | l in old(queue) :: l.nodeid == old(l.nodeid) && l.nlookup == old(l.nlookup)
    {
      var last, newhead;
      last, newhead, count := Walk(max);
      first := if last == null then null else head.next;
      got := queue[..count];
      Cut(last, newhead, count);
    }

    // The rest of it: the list continues with newhead, and last, if there is one, ends the part cut off.
    method Cut(last: ForgetLink?, newhead: ForgetLink?, ghost count: nat)
      requires Valid() && count <= |queue| && newhead == (if count < |queue| then queue[count] else null)
      requires last == if count == 0 then null else queue[count - 1]
      modifies this, head`next, if last == null then {} else {last}
      ensures Valid() && queue == old(queue)[count..] && Linked(old(queue)[..count])
      ensures last != null ==> last.nodeid == old(last.nodeid) && last.nlookup == old(last.nlookup)
    {
      ghost var all := queue;
      OnlyThere(all, count);
      head.next := newhead;
      if last != null {
        last.next := null;
      }
      if newhead == null {
        tail := head;
      }
      assert forall i | 0 <= i < |all| && i + 1 != count :: all[i].next == Follower(all, i);
      LinkedParts(all, count);
      SuffixDistinct(all, count);
      queue := all[count..];
    }
  }

  // ------------------------------------------------ alternation

  datatype Read = Forget | Ordinary

  const MAX_FORGETS: int := 16
  const MAX_ORDINARY: int := 8

  // fuse_dev_do_read with no interrupt pending, 1323-1331: what is read, and forget_batch afterwards
  method ChooseRead(forgetPending: bool, ordinaryPending: bool, batch0: int) returns (read: Read, batch: int)
    requires forgetPending || ordinaryPending
    ensures (read, batch) == Choice(forgetPending, ordinaryPending, batch0)
  {
    batch := batch0;
    if forgetPending {
      if !ordinaryPending {
        return Forget, batch;
      }
      batch := batch - 1;
      if batch + 1 > 0 {
        return Forget, batch;
      }
      if batch <= -8 {
        batch := 16;
      }
    }
    read := Ordinary;
  }

  function Choice(forgetPending: bool, ordinaryPending: bool, batch: int): (Read, int) {
    if !forgetPending then (Ordinary, batch)
    else if !ordinaryPending then (Forget, batch)
    else if batch > 0 then (Forget, batch - 1)
    else (Ordinary, if batch <= -7 then 16 else batch - 1)
  }

  // Which kinds are pending at each of a series of reads
  datatype Pending = Pending(forget: bool, ordinary: bool)

  function BatchAfter(ps: seq<Pending>, batch: int): int {
    if ps == [] then batch else Choice(ps[|ps| - 1].forget, ps[|ps| - 1].ordinary, BatchAfter(ps[..|ps| - 1], batch)).1
  }

  function Reads(ps: seq<Pending>, batch: int): (rs: seq<Read>)
    ensures |rs| == |ps|
  {
    if ps == [] then []
    else
      Reads(ps[..|ps| - 1], batch) +
      [Choice(ps[|ps| - 1].forget, ps[|ps| - 1].ordinary, BatchAfter(ps[..|ps| - 1], batch)).0]
  }

  // Between reads forget_batch stays from -7 to 16, whatever is pending.
  lemma {:induction false} BatchInRange(ps: seq<Pending>, batch: int)
    requires -7 <= batch <= 16
    ensures -7 <= BatchAfter(ps, batch) <= 16
  {
    if ps != [] {
      BatchInRange(ps[..|ps| - 1], batch);
    }
  }

  // How many reads of the same kind there have been at the end of a series
  function Streak(rs: seq<Read>, r: Read): nat {
    if rs == [] || rs[|rs| - 1] != r then 0 else 1 + Streak(rs[..|rs| - 1], r)
  }

  predicate BothPending(ps: seq<Pending>) { forall p | p in ps :: p.forget && p.ordinary }

  // While both kinds stay pending, forget_batch counts the current series.
  lemma {:induction false} BatchCounts(ps: seq<Pending>, batch: int)
    requires BothPending(ps) && -7 <= batch <= 16
    ensures var b, rs := BatchAfter(ps, batch), Reads(ps, batch);
            && Streak(rs, Forget) <= (if b >= 0 then 16 - b else 0)
            && Streak(rs, Ordinary) <= (if b <= 0 then -b else if b == 16 then 8 else 0)
  {
    if ps != [] {
      var front, p := ps[..|ps| - 1], ps[|ps| - 1];
      assert p in ps;
      BatchCounts(front, batch);
      BatchInRange(front, batch);
      assert Reads(ps, batch)[..|ps| - 1] == Reads(front, batch);
    }
  }

  // Neither kind starves: whatever was read before, while both kinds are pending there are at most 16 forgets in a row
  // and at most 8 ordinary requests.
  lemma NoStarvation(before: seq<Pending>, ps: seq<Pending>)
    requires BothPending(ps)
    ensures var rs := Reads(ps, BatchAfter(before, 0));
            Streak(rs, Forget) <= MAX_FORGETS && Streak(rs, Ordinary) <= MAX_ORDINARY
  {
    BatchInRange(before, 0);
    BatchCounts(ps, BatchAfter(before, 0));
    BatchInRange(ps, BatchAfter(before, 0));
  }
}
