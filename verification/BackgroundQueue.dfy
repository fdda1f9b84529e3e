// Background requests of a connection: bg_queue, what flush_bg_queue hands to the input queue, and the counters and the
// limit that bg_lock protects (dev.c, control.c, inode.c).  Each method is one section under bg_lock; what it does to
// the counters is what the steps of RequestLifecycle do to them, and here the order of the queue is added.
module BackgroundQueue {
  import opened Basics
  import L = RequestLifecycle

  type Rid = L.Rid

  const FUSE_REQ_ID_STEP: nat := L.FUSE_REQ_ID_STEP

  // A request on the input queue with the id it was sent with
  datatype Sent = Sent(r: Rid, unique: nat)

  // How many requests flush_bg_queue lets go
  function Room(active: nat, max: nat): nat { if active < max then max - active else 0 }

  // Requests rs sent one after the other, the last id given so far being ctr
  function Numbered(rs: seq<Rid>, ctr: nat): (s: seq<Sent>)
    ensures |s| == |rs|
  {
    seq(|rs|, i requires 0 <= i < |rs| => Sent(rs[i], ctr + (i + 1) * FUSE_REQ_ID_STEP))
  }

  function Ids(s: seq<Sent>): seq<Rid> { seq(|s|, i requires 0 <= i < |s| => s[i].r) }

  // k turns of flush_bg_queue, as far as the counters go
  function Turns(b: L.Bg, k: nat): (b': L.Bg)
    ensures b' == b.(active := b.active + k)
  {
    if k == 0 then b else L.Activate(Turns(b, k - 1))
  }

  class Background {
    var numBackground: nat
    var activeBackground: nat
    var maxBackground: nat
    var blocked: bool
    var bgQueue: seq<Rid>
    var pending: seq<Sent>        // what has been given to the input queue, in order
    var reqctr: nat
    ghost var arrived: seq<Rid>   // every request ever queued, in order

    // The counters as RequestLifecycle has them, bg_lock being free; stale says whether blocked is wrong.
    ghost function Counters(): L.Bg
      reads this
    {
      L.Bg(numBackground, activeBackground, maxBackground, blocked, blocked != (numBackground >= maxBackground),
           L.Nobody)
    }

    // At every release of bg_lock: the counters are exact, and requests are sent first come, first served.
    ghost predicate Counted()
      reads this
    {
      numBackground == activeBackground + |bgQueue| && Ids(pending) + bgQueue == arrived
    }

    // Blocked exactly while the limit is reached
    ghost predicate Valid()
      reads this
    {
      Counted() && (blocked <==> numBackground >= maxBackground)
    }

    constructor ()
      ensures Valid() && arrived == [] && numBackground == 0 && maxBackground == L.FUSE_DEFAULT_MAX_BACKGROUND
      ensures pending == []
    {
      numBackground, activeBackground, maxBackground, blocked := 0, 0, L.FUSE_DEFAULT_MAX_BACKGROUND, false;
      bgQueue, pending, reqctr, arrived := [], [], 0, [];
    }

    // How many requests the loop of flush_bg_queue moves, were it to start with active of them under way
    ghost function Moved(active: nat, queue: seq<Rid>): nat
      reads this
    {
      Min(|queue|, Room(active, maxBackground))
    }

    // flush_bg_queue: the oldest requests, in order, as many as the limit leaves room for.  It stops only when the
    // queue is empty or the limit is reached, and never raises the active count above the limit.
    method FlushBgQueue()
      requires Counted()
      modifies this`activeBackground, this`bgQueue, this`pending, this`reqctr
      ensures Counted()
      ensures var k := Moved(old(activeBackground), old(bgQueue));
              && bgQueue == old(bgQueue)[k..] && Counters() == Turns(old(Counters()), k)
              && pending == old(pending) + Numbered(old(bgQueue)[..k], old(reqctr))
              && reqctr == old(reqctr) + k * FUSE_REQ_ID_STEP
      ensures bgQueue == [] || activeBackground >= maxBackground
      ensures activeBackground <= old(activeBackground) || activeBackground <= maxBackground
    {
      ghost var k: nat := 0;
      ghost var q := bgQueue;
      assert pending == pending + Numbered(q[..0], reqctr);
      while activeBackground < maxBackground && bgQueue != []
        invariant k <= |q| && k <= Room(old(activeBackground), maxBackground) && bgQueue == q[k..]
        invariant activeBackground == old(activeBackground) + k && reqctr == old(reqctr) + k * FUSE_REQ_ID_STEP
        invariant pending == old(pending) + Numbered(q[..k], old(reqctr)) && Counted()
        decreases |bgQueue|
      {
        var r := bgQueue[0];
        Sending(q, k, old(reqctr), pending, bgQueue);
        bgQueue := bgQueue[1..];
        activeBackground := activeBackground + 1;
        reqctr := reqctr + FUSE_REQ_ID_STEP;
        pending := pending + [Sent(r, reqctr)];
        k := k + 1;
      }
    }

    // fuse_request_queue_background, under bg_lock
    method QueueBackground(r: Rid, connected: bool) returns (queued: bool)
      requires Counted()
      modifies this
      ensures Counted() && queued == connected && (old(Valid()) ==> Valid())
      ensures queued ==> var k, q := Moved(old(activeBackground), old(bgQueue) + [r]), old(bgQueue) + [r];
                && Counters() == Turns(L.Arrive(old(Counters())), k) && arrived == old(arrived) + [r]
                && bgQueue == q[k..] && pending == old(pending) + Numbered(q[..k], old(reqctr))
      ensures queued ==> bgQueue == [] || activeBackground >= maxBackground
      ensures activeBackground <= old(activeBackground) || activeBackground <= maxBackground
      ensures !queued ==>
                Counters() == old(Counters()) && arrived == old(arrived) && bgQueue == old(bgQueue)
                && pending == old(pending)
    {
      if !connected {
        return false;
      }
      numBackground := numBackground + 1;
      if numBackground == maxBackground {
        blocked := true;
      }
      AppendIds(Ids(pending), bgQueue, r);
      bgQueue := bgQueue + [r];
      arrived := arrived + [r];
      FlushBgQueue();
      queued := true;
    }

    // The part of fuse_request_end for a background request, one of the active ones
    method EndBackground()
      requires Counted() && activeBackground > 0
      modifies this`numBackground, this`activeBackground, this`blocked, this`bgQueue, this`pending, this`reqctr
      ensures Counted() && (old(Valid()) ==> Valid())
      ensures var k := Moved(old(activeBackground) - 1, old(bgQueue));
              && Counters() == Turns(L.Leave(old(Counters())), k)
              && bgQueue == old(bgQueue)[k..] && pending == old(pending) + Numbered(old(bgQueue)[..k], old(reqctr))
      ensures bgQueue == [] || activeBackground >= maxBackground
      ensures activeBackground < old(activeBackground) || activeBackground <= maxBackground
    {
      if numBackground == maxBackground {
        blocked := false;
      }
      numBackground := numBackground - 1;
      activeBackground := activeBackground - 1;
      assert Counters() == L.Leave(old(Counters())) && Counted();
      FlushBgQueue();
    }

    // fuse_conn_max_background_write; the queue is not flushed
    method SetMaxBackground(val: nat)
      requires Counted()
      modifies this`maxBackground, this`blocked
      ensures Valid() && Counters() == L.SetMax(old(Counters()), val)
    {
      maxBackground := val;
      blocked := numBackground >= maxBackground;
    }

    // The section of fuse_abort_conn under bg_lock: everything is let go.
    method AbortBackground()
      requires Counted() && numBackground < L.UINT_MAX
      modifies this
      ensures Valid() && bgQueue == [] && !blocked && Ids(pending) == arrived == old(arrived)
      ensures Counters() == Turns(L.Unlimit(old(Counters())), |old(bgQueue)|)
      ensures pending == old(pending) + Numbered(old(bgQueue), old(reqctr))
    {
      blocked := false;
      maxBackground := L.UINT_MAX;
      FlushBgQueue();
      assert bgQueue == [];
      assert Ids(pending) + [] == Ids(pending);
      assert old(bgQueue)[..|old(bgQueue)|] == old(bgQueue);
    }

    // process_init_limits takes the server's limit but leaves blocked as it is: the invariant survives exactly if the
    // number of background requests is on the same side of the old and the new limit.
    method InitLimits(val: nat, capable: bool, maxUser: nat)
      requires Counted()
      modifies this`maxBackground
      ensures maxBackground == NewLimit(old(maxBackground), val, capable, maxUser) && Counted()
      ensures Counters() == L.InitMax(old(Counters()), maxBackground)
      ensures old(Valid()) ==> (Valid() <==> (numBackground >= maxBackground <==> numBackground >= old(maxBackground)))
    {
      if val != 0 {
        maxBackground := val;
        if !capable && maxBackground > maxUser {
          maxBackground := maxUser;
        }
      }
    }
  }

  function NewLimit(max: nat, val: nat, capable: bool, maxUser: nat): nat {
    if val == 0 then max else if !capable && val > maxUser then maxUser else val
  }

  // One more request is sent: ids and order.
  lemma Sending(q: seq<Rid>, k: nat, ctr: nat, pending: seq<Sent>, rest: seq<Rid>)
    requires k < |q| && rest == q[k..]
    ensures Numbered(q[..k + 1], ctr) == Numbered(q[..k], ctr)
      + [Sent(q[k], ctr + k * FUSE_REQ_ID_STEP + FUSE_REQ_ID_STEP)]
    ensures forall s: Sent | s.r == rest[0] :: Ids(pending + [s]) + rest[1..] == Ids(pending) + rest
    ensures rest[1..] == q[k + 1..]
  {
    assert (k + 1) * FUSE_REQ_ID_STEP == k * FUSE_REQ_ID_STEP + FUSE_REQ_ID_STEP;
    forall s: Sent | s.r == rest[0] ensures Ids(pending + [s]) + rest[1..] == Ids(pending) + rest {
      assert Ids(pending + [s]) == Ids(pending) + [rest[0]];
      assert rest == [rest[0]] + rest[1..];
    }
  }

  lemma AppendIds(a: seq<Rid>, b: seq<Rid>, r: Rid)
    ensures a + (b + [r]) == (a + b) + [r]
  {
  }

  // The loop of flush_bg_queue is that many turns of RequestLifecycle: turn by turn the same counters and the same ids.
  function FlushTurns(c: L.Conn, pc: L.Pc, qs: seq<L.Req>): (L.Conn, seq<nat>) {
    if qs == [] then (c, [])
    else
      var (c1, ids) := FlushTurns(c, pc, qs[..|qs| - 1]);
      var o := L.FlushDo(c1, pc, qs[|qs| - 1]);
      (o.c, ids + [o.q.unique])
  }

  lemma {:induction false} FlushRefines(c: L.Conn, pc: L.Pc, qs: seq<L.Req>, rs: seq<Rid>)
    requires |rs| == |qs|
    ensures var (c', ids) := FlushTurns(c, pc, qs);
            && c' == c.(bg := Turns(c.bg, |qs|), reqctr := c.reqctr + |qs| * FUSE_REQ_ID_STEP)
            && |ids| == |qs| && Numbered(rs, c.reqctr) == seq(|qs|, i requires 0 <= i < |qs| => Sent(rs[i], ids[i]))
  {
    if qs != [] {
      var n := |qs| - 1;
      FlushRefines(c, pc, qs[..n], rs[..n]);
      var (c1, ids1) := FlushTurns(c, pc, qs[..n]);
      var before := Numbered(rs[..n], c.reqctr);
      assert forall i | 0 <= i < n :: before[i] == Sent(rs[i], ids1[i]);
      assert forall i | 0 <= i < n :: Numbered(rs, c.reqctr)[i] == before[i];
    }
  }

  // A limit of 0 may be written before the server's INIT reply comes (the control file is there before FUSE_INIT is
  // sent). Then the reply raises the limit, and a connection without any background request stays blocked.
  method StaleBlocked() returns (b: Background)
    ensures b.Counted() && b.numBackground == 0 && b.maxBackground == 20 && b.blocked && !b.Valid()
  {
    b := new Background();
    b.SetMaxBackground(0);
    b.InitLimits(20, true, 0);
  }

  // Nothing but the limit being set again, or reached, ends that: while the count stays below the limit a blocked
  // connection stays blocked, whatever arrives and completes.
  datatype Event = Came | Went

  function After(b: L.Bg, es: seq<Event>): L.Bg {
    if es == [] then b
    else
      var before := After(b, es[..|es| - 1]);
      if es[|es| - 1].Came? then L.Arrive(before) else L.Leave(before)
  }

  lemma {:induction false} StaysBlocked(b: L.Bg, es: seq<Event>)
    requires b.blocked && forall i | 0 <= i <= |es| :: After(b, es[..i]).num < b.max
    ensures After(b, es).blocked && After(b, es).max == b.max && After(b, es).num < b.max
  {
    assert es[..|es|] == es;
    if es != [] {
      var n := |es| - 1;
      assert forall i | 0 <= i <= n :: es[..n][..i] == es[..i];
      StaysBlocked(b, es[..n]);
    }
  }
}
