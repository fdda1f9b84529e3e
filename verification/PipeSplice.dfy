// fuse_dev_splice_write of dev.c: taking the first len bytes out of a pipe, a ring of buffers indexed by wrapping
// 32-bit counters under a power-of-two mask.
module PipeSplice {
  import opened Basics
  import opened CopyEngine

  // a & b
  function And(a: nat, b: nat): nat {
    if a == 0 || b == 0 then 0 else 2 * And(a / 2, b / 2) + (if a % 2 == 1 && b % 2 == 1 then 1 else 0)
  }

  // ------------------------------------------------ masking

  // The lowest k bits of a
  function Low(a: nat, k: nat): (r: nat)
    ensures r < Pow2(k)
    decreases k
  {
    if k == 0 then 0 else 2 * Low(a / 2, k - 1) + a % 2
  }

  lemma {:induction false} LowZero(k: nat)
    ensures Low(0, k) == 0
  {
    if k > 0 {
      LowZero(k - 1);
    }
  }

  // Masking with a power of two less one leaves the lowest bits.
  lemma {:induction false} MaskIsLow(a: nat, k: nat)
    ensures And(a, Pow2(k) - 1) == Low(a, k)
    decreases k
  {
    if k > 0 {
      MaskIsLow(a / 2, k - 1);
      LowZero(k);
      assert (Pow2(k) - 1) / 2 == Pow2(k - 1) - 1 && (Pow2(k) - 1) % 2 == 1;
    }
  }

  // Numbers less than a full round apart have different lowest bits.
  lemma {:induction false} LowInjective(a: nat, b: nat, k: nat)
    requires a <= b < a + Pow2(k) && Low(a, k) == Low(b, k)
    ensures a == b
    decreases k
  {
    if k > 0 {
      LowInjective(a / 2, b / 2, k - 1);
    }
  }

  // A wrap-around of more bits does not touch the lowest ones.
  lemma {:induction false} LowWraps(a: nat, n: nat, k: nat)
    requires k <= n
    ensures Low(a + Pow2(n), k) == Low(a, k)
    decreases k
  {
    if k > 0 {
      LowWraps(a / 2, n - 1, k - 1);
      assert (a + Pow2(n)) / 2 == a / 2 + Pow2(n - 1) && (a + Pow2(n)) % 2 == a % 2;
    }
  }

  lemma LowWraps32(a: nat, k: nat)
    requires k <= 32
    ensures Low(a + TWO32, k) == Low(a, k)
  {
    Pow32();
    LowWraps(a, 32, k);
  }

  // The sum of two unsigned ints
  function Wrap(sum: nat): (r: nat)
    requires sum < 2 * TWO32
    ensures r < TWO32
  {
    if sum < TWO32 then sum else sum - TWO32
  }

  // idx & mask
  function Slot(order: nat, idx: nat): (r: nat)
    ensures r < Pow2(order)
  {
    MaskIsLow(idx, order);
    And(idx, Pow2(order) - 1)
  }

  lemma SlotWraps(order: nat, idx: nat)
    requires order <= 32 && idx < 2 * TWO32
    ensures Slot(order, Wrap(idx)) == Low(idx, order)
  {
    MaskIsLow(Wrap(idx), order);
    if idx >= TWO32 {
      LowWraps32(idx - TWO32, order);
    }
  }

  // Entries of a ring that are not further apart than its size lie in different buffers, also across a wrap.
  lemma SlotsDistinct(order: nat, tail: nat, i: nat, j: nat)
    requires order <= 32 && tail < TWO32 && i < j < Pow2(order) <= TWO32
    ensures Slot(order, Wrap(tail + i)) != Slot(order, Wrap(tail + j))
  {
    SlotWraps(order, tail + i);
    SlotWraps(order, tail + j);
    if Low(tail + i, order) == Low(tail + j, order) {
      LowInjective(tail + i, tail + j, order);
    }
  }

  // ------------------------------------------------ the ring

  // A ring that 32-bit counters can index
  predicate RingOk(ring: seq<Seg>, order: nat) { |ring| == Pow2(order) <= TWO32 && order <= 32 }

  function EntryAt(ring: seq<Seg>, order: nat, tail: nat, i: nat): Seg
    requires RingOk(ring, order) && tail < TWO32 && i <= TWO32
    requires tail + i < 2 * TWO32
  {
    ring[Slot(order, Wrap(tail + i))]
  }

  // The n entries from tail on
  function Entries(ring: seq<Seg>, order: nat, tail: nat, n: nat): (s: seq<Seg>)
    requires RingOk(ring, order) && tail < TWO32 && n <= Pow2(order)
    ensures |s| == n
  {
    seq(n, i requires 0 <= i < n => EntryAt(ring, order, tail, i))
  }

  lemma EntryNext(ring: seq<Seg>, order: nat, tail: nat, i: nat)
    requires RingOk(ring, order) && tail < TWO32 && i < Pow2(order)
    ensures EntryAt(ring, order, Wrap(tail + 1), i) == EntryAt(ring, order, tail, i + 1)
  {
    assert Wrap(Wrap(tail + 1) + i) == Wrap(tail + (i + 1));
  }

  lemma EntriesTail(ring: seq<Seg>, order: nat, tail: nat, n: nat)
    requires RingOk(ring, order) && tail < TWO32 && 0 < n <= Pow2(order)
    ensures Entries(ring, order, tail, n) == [ring[Slot(order, tail)]] + Entries(ring, order, Wrap(tail + 1), n - 1)
  {
    var next := Wrap(tail + 1);
    forall i: nat | i < n - 1 ensures EntryAt(ring, order, next, i) == EntryAt(ring, order, tail, i + 1) {
      EntryNext(ring, order, tail, i);
    }
    assert EntryAt(ring, order, tail, 0) == ring[Slot(order, tail)];
  }

  // Changing the first entry leaves the others.
  lemma EntriesChanged(ring: seq<Seg>, order: nat, tail: nat, n: nat, b: Seg)
    requires RingOk(ring, order) && tail < TWO32 && 0 < n <= Pow2(order)
    ensures Entries(ring[Slot(order, tail) := b], order, tail, n) == Entries(ring, order, tail, n)[0 := b]
  {
    var ring' := ring[Slot(order, tail) := b];
    forall i: nat | 0 < i < n ensures EntryAt(ring', order, tail, i) == EntryAt(ring, order, tail, i) {
      SlotsDistinct(order, tail, 0, i);
    }
    assert EntryAt(ring', order, tail, 0) == b;
  }

  lemma FlattenCons(s: Seg, rest: seq<Seg>)
    requires s.Ok() && AllOk(rest)
    ensures AllOk([s] + rest) && Flatten([s] + rest) == Bytes(s) + Flatten(rest)
  {
    assert ([s] + rest)[1..] == rest;
  }

  lemma {:induction false} FlattenSnoc(segs: seq<Seg>, s: Seg)
    requires AllOk(segs) && s.Ok()
    ensures AllOk(segs + [s]) && Flatten(segs + [s]) == Flatten(segs) + Bytes(s)
  {
    if segs == [] {
      assert Flatten([s]) == Bytes(s) + Flatten([s][1..]);
    } else {
      assert AllOk(segs[1..]);
      FlattenSnoc(segs[1..], s);
      assert (segs + [s])[1..] == segs[1..] + [s];
    }
  }

  // A buffer cut in two
  function Front(b: Seg, n: nat): Seg { b.(len := n) }

  function Back(b: Seg, n: nat): Seg
    requires n <= b.len
  {
    b.(offset := b.offset + n, len := b.len - n)
  }

  lemma Cut(b: Seg, n: nat)
    requires b.Ok() && n <= b.len
    ensures Front(b, n).Ok() && Back(b, n).Ok() && Bytes(b) == Bytes(Front(b, n)) + Bytes(Back(b, n))
      && |Bytes(Front(b, n))| == n
  {
  }

  datatype Splice = Failed(error: int) | Taken(bufs: seq<Seg>)

  // ------------------------------------------------ which buffers are taken

  // How many buffers are wanted as a whole, rem bytes being wanted ...
  function Whole(c: seq<Seg>, rem: nat): (k: nat)
    ensures k <= |c|
  {
    if rem == 0 || c == [] || c[0].len > rem then 0 else 1 + Whole(c[1..], rem - c[0].len)
  }

  // ... and how many bytes of the next one
  function Rem(c: seq<Seg>, rem: nat): (n: nat)
    ensures n <= rem
  {
    if rem == 0 || c == [] || c[0].len > rem then rem else Rem(c[1..], rem - c[0].len)
  }

  lemma {:induction false} WholeFits(c: seq<Seg>, len: nat)
    requires AllOk(c)
    ensures AllOk(c[..Whole(c, len)]) && |Flatten(c[..Whole(c, len)])| + Rem(c, len) == len
    ensures |Flatten(c)| >= len && Rem(c, len) > 0 ==> Whole(c, len) < |c| && c[Whole(c, len)].len > Rem(c, len)
  {
    if !(len == 0 || c == [] || c[0].len > len) {
      var k := Whole(c, len);
      assert c[0] in c && AllOk(c[1..]);
      WholeFits(c[1..], len - c[0].len);
      assert c[..k] == [c[0]] + c[1..][..k - 1];
      FlattenCons(c[0], c[1..][..k - 1]);
    }
  }

  // What is taken from a pipe with the buffers c, and what is left of them.  get: whether the last buffer can be
  // shared.
  datatype Spliced = Spliced(r: Splice, left: seq<Seg>)

  function SpliceOf(c: seq<Seg>, len: nat, get: bool): Spliced
    requires AllOk(c)
  {
    WholeFits(c, len);
    var k, rem := Whole(c, len), Rem(c, len);
    if |Flatten(c)| < len then Spliced(Failed(-EINVAL), c)
    else if rem == 0 then Spliced(Taken(c[..k]), c[k..])
    else if !get then Spliced(Failed(-EINVAL), c[k..])
    else Spliced(Taken(c[..k] + [Front(c[k], rem)]), [Back(c[k], rem)] + c[k + 1..])
  }

  lemma {:induction false} FlattenSplit(c: seq<Seg>, k: nat)
    requires AllOk(c) && k <= |c|
    ensures AllOk(c[..k]) && AllOk(c[k..]) && Flatten(c) == Flatten(c[..k]) + Flatten(c[k..])
  {
    if k > 0 {
      FlattenSplit(c, k - 1);
      assert c[k - 1] in c && c[k - 1..][1..] == c[k..] && c[..k] == c[..k - 1] + [c[k - 1]];
      FlattenSnoc(c[..k - 1], c[k - 1]);
      MoveBytes(Flatten(c[..k - 1]), Bytes(c[k - 1]), Flatten(c[k..]));
    } else {
      assert c[0..] == c;
    }
  }

  // The last buffer cut in two
  lemma CutLast(c: seq<Seg>, k: nat, rem: nat)
    requires AllOk(c) && k < |c| && rem <= c[k].len
    ensures AllOk(c[..k] + [Front(c[k], rem)]) && AllOk([Back(c[k], rem)] + c[k + 1..])
    ensures Flatten(c[..k] + [Front(c[k], rem)]) + Flatten([Back(c[k], rem)] + c[k + 1..]) == Flatten(c)
    ensures |Flatten(c[..k] + [Front(c[k], rem)])| == |Flatten(c[..k])| + rem
  {
    FlattenSplit(c, k);
    FlattenSplit(c, k + 1);
    assert c[k] in c;
    Cut(c[k], rem);
    FlattenSnoc(c[..k], Front(c[k], rem));
    FlattenCons(Back(c[k], rem), c[k + 1..]);
    assert c[k..][1..] == c[k + 1..];
    MoveBytes(Bytes(Front(c[k], rem)), Bytes(Back(c[k], rem)), Flatten(c[k + 1..]));
    MoveBytes(Flatten(c[..k]), Bytes(Front(c[k], rem)), Flatten([Back(c[k], rem)] + c[k + 1..]));
  }

  // When it succeeds, exactly len bytes are taken, in order; followed by what is left they are what was in the pipe.
  lemma SpliceConserves(c: seq<Seg>, len: nat, get: bool)
    requires AllOk(c)
    ensures var s := SpliceOf(c, len, get);
            && AllOk(s.left) && (s.r.Taken? <==> |Flatten(c)| >= len && (get || Rem(c, len) == 0))
            && (s.r.Taken? ==>
                  AllOk(s.r.bufs) && Flatten(s.r.bufs) + Flatten(s.left) == Flatten(c) && |Flatten(s.r.bufs)| == len &&
                  |s.r.bufs| <= |c|)
  {
    WholeFits(c, len);
    FlattenSplit(c, Whole(c, len));
    if |Flatten(c)| >= len && Rem(c, len) > 0 {
      CutLast(c, Whole(c, len), Rem(c, len));
    }
  }

  // The bytes that are handed on or still in the pipe
  ghost function Kept(s: Spliced): seq<byte>
    requires AllOk(s.left) && (s.r.Taken? ==> AllOk(s.r.bufs))
  {
    (if s.r.Taken? then Flatten(s.r.bufs) else []) + Flatten(s.left)
  }

  // When the last buffer cannot be shared, the buffers before it have left the pipe already and are released: bytes are
  // lost unless the pipe is too short, ends on a buffer's end, or has its first byte in the buffer to be cut.
  lemma NothingLost(c: seq<Seg>, len: nat, get: bool)
    requires AllOk(c)
    ensures var s := SpliceOf(c, len, get);
            && AllOk(s.left) && (s.r.Taken? ==> AllOk(s.r.bufs))
            && (Kept(s) == Flatten(c) <==> get || |Flatten(c)| < len || Rem(c, len) == 0 || Rem(c, len) == len)
  {
    var s := SpliceOf(c, len, get);
    SpliceConserves(c, len, get);
    WholeFits(c, len);
    FlattenSplit(c, Whole(c, len));
    assert s.r.Failed? ==> Kept(s) == Flatten(s.left);
    assert s.r.Failed? && |Flatten(c)| >= len ==> |Flatten(c)| == len - Rem(c, len) + |Kept(s)|;
  }

  // A pipe with a ring of Pow2(order) buffers; head and tail count modulo 2^32.
  class Pipe {
    const order: nat
    const bufs: array<Seg>
    var head: nat
    var tail: nat

    // head - tail
    function Count(): nat
      reads this
      requires head < TWO32 && tail < TWO32
    {
      if head >= tail then head - tail else head - tail + TWO32
    }

    ghost predicate Indexed()
      reads this, bufs
    {
      RingOk(bufs[..], order) && head < TWO32 && tail < TWO32 && Count() <= Pow2(order)
    }

    // The buffers in the pipe, in order
    ghost function Contents(): seq<Seg>
      reads this, bufs
      requires Indexed()
    {
      Entries(bufs[..], order, tail, Count())
    }

    ghost predicate Valid()
      reads this, bufs
    {
      Indexed() && AllOk(Contents())
    }

    constructor (order: nat, bufs: array<Seg>, head: nat, tail: nat)
      requires RingOk(bufs[..], order) && head < TWO32 && tail < TWO32
      requires (if head >= tail then head - tail else head - tail + TWO32) <= Pow2(order)
      requires AllOk(Entries(bufs[..], order, tail, if head >= tail then head - tail else head - tail + TWO32))
      ensures Valid() && this.bufs == bufs && this.order == order && this.head == head && this.tail == tail
    {
      this.order, this.bufs, this.head, this.tail := order, bufs, head, tail;
    }

    // The first buffer and the rest
    lemma FirstBuffer()
      requires Valid() && tail != head
      ensures Slot(order, tail) < bufs.Length && bufs[Slot(order, tail)].Ok() && Contents() != []
      ensures Contents()[0] == bufs[Slot(order, tail)]
      ensures Contents()[1..] == Entries(bufs[..], order, Wrap(tail + 1), Count() - 1) && AllOk(Contents()[1..])
      ensures Flatten(Contents()) == Bytes(bufs[Slot(order, tail)]) + Flatten(Contents()[1..])
    {
      EntriesTail(bufs[..], order, tail, Count());
      assert Contents()[0] in Contents();
    }

    // The first buffer leaves the pipe.
    method Advance()
      requires Valid() && tail != head
      modifies this`tail
      ensures Valid() && Contents() == old(Contents())[1..] && Count() == old(Count()) - 1
    {
      FirstBuffer();
      tail := Wrap(tail + 1);
    }

    // n bytes leave the first buffer, from its front.
    method Shorten(n: nat)
      requires Valid() && tail != head && n <= bufs[Slot(order, tail)].len
      modifies bufs
      ensures Valid() && Contents() == [Back(old(Contents())[0], n)] + old(Contents())[1..]
    {
      FirstBuffer();
      var b := bufs[Slot(order, tail)];
      Cut(b, n);
      ghost var c := Contents();
      EntriesChanged(bufs[..], order, tail, Count(), Back(b, n));
      bufs[Slot(order, tail)] := Back(b, n);
      assert Contents() == c[0 := Back(b, n)] == [Back(b, n)] + c[1..];
      assert AllOk(c[1..]);
    }

    // The loop that sums up the lengths until len is reached
    method Available(len: nat) returns (enough: bool)
      requires Valid()
      ensures enough <==> |Flatten(Contents())| >= len
    {
      var idx: nat, rem: nat := tail, 0;
      ghost var c := Contents();
      ghost var k: nat := 0;
      assert c[0..] == c;
      while idx != head && rem < len
        invariant k <= |c| && idx == Wrap(tail + k) && rem + |Flatten(c[k..])| == |Flatten(c)|
        decreases |c| - k
      {
        SumStep(c, k);
        rem := rem + bufs[Slot(order, idx)].len;
        idx, k := Wrap(idx + 1), k + 1;
      }
      enough := rem >= len;
    }

    // k buffers have been moved, rem bytes are still wanted.
    ghost predicate Splicing(c: seq<Seg>, len: nat, out: seq<Seg>, rem: nat)
      reads this, bufs
    {
      var k := |out|;
      && Valid() && k <= |c| && out == c[..k] && Contents() == c[k..] && rem <= |Flatten(Contents())|
      && Whole(c, len) == k + Whole(c[k..], rem) && Rem(c, len) == Rem(c[k..], rem)
    }

    // A buffer that is wanted as a whole moves over.
    method MoveBuffer(ghost c: seq<Seg>, ghost len: nat, out: seq<Seg>, rem: nat) returns (obuf: Seg)
      requires Splicing(c, len, out, rem) && tail != head && rem >= bufs[Slot(order, tail)].len && rem > 0
      modifies this`tail
      ensures obuf.len <= rem && Splicing(c, len, out + [obuf], rem - obuf.len) && |out| < |c|
    {
      FirstBuffer();
      obuf := bufs[Slot(order, tail)];
      assert c[|out|..][0] == obuf && c[|out|..][1..] == c[|out| + 1..];
      Advance();
    }

    // Of the last one, the front rem bytes do.
    method SplitBuffer(ghost c: seq<Seg>, ghost len: nat, out: seq<Seg>, rem: nat) returns (obuf: Seg)
      requires Splicing(c, len, out, rem) && tail != head && 0 < rem < bufs[Slot(order, tail)].len
      modifies bufs
      ensures Valid() && Whole(c, len) == |out| < |c| && Rem(c, len) == rem <= c[|out|].len
      ensures obuf == Front(c[|out|], rem) && Contents() == [Back(c[|out|], rem)] + c[|out| + 1..]
    {
      FirstBuffer();
      assert c[|out|..][0] == bufs[Slot(order, tail)] && c[|out|..][1..] == c[|out| + 1..];
      obuf := Front(bufs[Slot(order, tail)], rem);
      Shorten(rem);
    }

    // The loop that fills the array of buffers
    method Collect(len: nat, get: bool) returns (r: Splice)
      requires Valid() && |Flatten(Contents())| >= len
      modifies this`tail, bufs
      ensures Valid() && r == SpliceOf(old(Contents()), len, get).r
        && Contents() == SpliceOf(old(Contents()), len, get).left
    {
      ghost var c := Contents();
      var limit := Count();
      var out: seq<Seg>, rem: nat := [], len;
      assert c[0..] == c;
      while rem > 0
        invariant Splicing(c, len, out, rem)
        decreases |c| - |out|
      {
        SomethingLeft(c, len, out, rem);
        var nbuf := |out|;
        if nbuf >= limit || tail == head {
          return Failed(-EINVAL);
        }
        FirstBuffer();
        if rem >= bufs[Slot(order, tail)].len {
          var obuf := MoveBuffer(c, len, out, rem);
          out, rem := out + [obuf], rem - obuf.len;
        } else {
          if !get {
            return Failed(-EINVAL);
          }
          var obuf := SplitBuffer(c, len, out, rem);
          return Taken(out + [obuf]);
        }
      }
      return Taken(out);
    }

    // fuse_dev_splice_write up to the copying: what is taken, what stays and what is lost is what SpliceOf says.
    method SpliceOut(len: nat, get: bool) returns (r: Splice)
      requires Valid()
      modifies this`tail, bufs
      ensures Valid() && r == SpliceOf(old(Contents()), len, get).r
        && Contents() == SpliceOf(old(Contents()), len, get).left
      ensures r.Taken? ==>
                && AllOk(r.bufs) && Flatten(r.bufs) + Flatten(Contents()) == old(Flatten(Contents()))
                && |Flatten(r.bufs)| == len && |r.bufs| <= old(Count())
      ensures r.Failed? <==> |old(Flatten(Contents()))| < len || (!get && Rem(old(Contents()), len) > 0)
    {
      SpliceConserves(Contents(), len, get);
      var enough := Available(len);
      if !enough {
        return Failed(-EINVAL);
      }
      r := Collect(len, get);
    }

    // While bytes are wanted there are buffers: the warning is not reached.
    lemma SomethingLeft(c: seq<Seg>, len: nat, out: seq<Seg>, rem: nat)
      requires Splicing(c, len, out, rem) && rem > 0
      ensures tail != head && |out| < |c|
    {
      assert |Contents()| == Count();
    }
  }

  lemma TwoBuffers(b: Seg)
    requires b.Ok() && b.len == 3
    ensures |Flatten([b, b])| == 6 && Whole([b, b], 4) == 1 && Rem([b, b], 4) == 1
  {
    assert [b, b][1..] == [b] && [b][1..] == [];
    assert |Flatten([b])| == 3;
    assert Whole([b], 1) == 0 && Rem([b], 1) == 1;
  }

  // Two buffers of three bytes, four bytes wanted, the second not to be shared: an error, and three bytes are gone.
  method LosesBytes(page: seq<byte>) returns (p: Pipe, r: Splice)
    requires |page| == PAGE_SIZE
    ensures r == Failed(-EINVAL) && p.Valid() && p.Contents() == [Seg(page, 0, 3)]
  {
    var b := Seg(page, 0, 3);
    var bufs := new Seg[2](_ => b);
    p := new Pipe(1, bufs, 2, 0);
    assert p.Contents() == [b, b];
    TwoBuffers(b);
    r := p.SpliceOut(4, false);
  }

  lemma MoveBytes(a: seq<byte>, b: seq<byte>, c: seq<byte>)
    ensures a + (b + c) == (a + b) + c
  {
  }

  lemma SumStep(c: seq<Seg>, k: nat)
    requires AllOk(c) && k < |c|
    ensures c[k].Ok() && |Flatten(c[k..])| == c[k].len + |Flatten(c[k + 1..])|
  {
    assert c[k] in c;
    assert c[k..][1..] == c[k + 1..];
  }
}
