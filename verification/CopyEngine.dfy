// The reply side of the copy engine in dev.c: a reply that arrives in segments is copied, or its pages moved, into the
// arguments and pages of a request; and the header and footer split of the payload.
module CopyEngine {
  import opened Basics

  const OUT_HEADER_SIZE: nat := 32

  // A page of the user's buffer or of a pipe, of which len bytes from offset on belong to the reply
  datatype Seg = Seg(page: seq<byte>, offset: nat, len: nat) {
    predicate Ok() { |page| == PAGE_SIZE && offset + len <= PAGE_SIZE }
  }

  function Bytes(s: Seg): seq<byte>
    requires s.Ok()
  {
    s.page[s.offset..s.offset + s.len]
  }

  predicate AllOk(segs: seq<Seg>) { forall s | s in segs :: s.Ok() }

  function Flatten(segs: seq<Seg>): seq<byte>
    requires AllOk(segs)
  {
    if segs == [] then [] else Bytes(segs[0]) + Flatten(segs[1..])
  }

  // Writing one piece and then the next is writing both.
  lemma OverwriteTwice(page: seq<byte>, o: nat, a: seq<byte>, b: seq<byte>)
    requires o + |a| + |b| <= |page|
    ensures Overwrite(Overwrite(page, o, a), o + |a|, b) == Overwrite(page, o, a + b)
  {
  }

  // struct fuse_copy_state.  faults: how many more times the segments can be changed before the request is found
  // aborted; steals: whether a page of the pipe can be taken over.
  class CopyState {
    const segs: seq<Seg>
    const steals: bool
    var movePages: bool
    var next: nat
    var nrSegs: nat
    var pg: seq<byte>
    var offset: nat
    var len: nat
    var faults: nat

    ghost predicate Valid()
      reads this
    {
      AllOk(segs) && next <= |segs| && nrSegs == |segs| - next && offset + len <= |pg|
    }

    // What of the reply has not been copied yet
    ghost function Left(): seq<byte>
      reads this
      requires Valid()
    {
      pg[offset..offset + len] + Flatten(segs[next..])
    }

    constructor (segs: seq<Seg>, movePages: bool, steals: bool, faults: nat)
      requires AllOk(segs)
      ensures Valid() && Left() == Flatten(segs) && this.segs == segs
    {
      this.segs, this.steals, this.movePages, this.faults := segs, steals, movePages, faults;
      next, nrSegs, pg, offset, len := 0, |segs|, [], 0, 0;
      new;
      assert segs[0..] == segs;
    }

    // unlock_request and lock_request
    method Interrupted() returns (aborted: bool)
      modifies this`faults
      ensures !aborted ==> faults < old(faults)
    {
      aborted := faults == 0;
      faults := if faults == 0 then 0 else faults - 1;
    }

    // Taking the next segment, in fuse_copy_fill and fuse_try_move_page; BUG_ON(!cs->nr_segs) is the precondition.
    method NextSegment()
      requires Valid() && len == 0 && nrSegs > 0
      modifies this`next, this`nrSegs, this`pg, this`offset, this`len
      ensures Valid() && Left() == old(Left()) && next == old(next) + 1
      ensures pg == segs[old(next)].page && offset == segs[old(next)].offset && len == segs[old(next)].len
    {
      assert segs[next] in segs;
      assert segs[next..][1..] == segs[next + 1..];
      var buf := segs[next];
      pg, offset, len := buf.page, buf.offset, buf.len;
      next, nrSegs := next + 1, nrSegs - 1;
    }

    // There are segments as long as something is left to copy.
    lemma SegmentsLeft()
      requires Valid() && len == 0 && Left() != []
      ensures nrSegs > 0
    {
    }

    // fuse_copy_fill
    method Fill() returns (ok: bool)
      requires Valid() && len == 0 && nrSegs > 0
      modifies this`next, this`nrSegs, this`pg, this`offset, this`len, this`faults
      ensures Valid() && Left() == old(Left()) && (ok ==> next == old(next) + 1)
    {
      var aborted := Interrupted();
      if aborted {
        return false;
      }
      NextSegment();
      return true;
    }

    // fuse_copy_do: up to size bytes out of the current segment
    method Do(size: nat) returns (data: seq<byte>)
      requires Valid()
      modifies this`offset, this`len
      ensures Valid() && |data| == Min(size, old(len)) && data + Left() == old(Left()) && len == old(len) - |data|
    {
      var ncpy := Min(size, len);
      data := pg[offset..offset + ncpy];
      assert pg[offset..offset + len] == data + pg[offset + ncpy..offset + len];
      offset, len := offset + ncpy, len - ncpy;
    }

    // fuse_copy_one: the next size bytes of the reply
    method CopyOne(size: nat) returns (ok: bool, val: seq<byte>)
      requires Valid() && size <= |Left()|
      modifies this`next, this`nrSegs, this`pg, this`offset, this`len, this`faults
      ensures Valid() && (ok ==> |val| == size && val + Left() == old(Left()))
    {
      val := [];
      var rest: nat := size;
      while rest > 0
        invariant Valid() && |val| + rest == size && val + Left() == old(Left())
        decreases rest, nrSegs
      {
        var data;
        ok, data := FillAndDo(rest);
        if !ok {
          return false, val;
        }
        assert val + (data + Left()) == (val + data) + Left();
        val := val + data;
        rest := rest - |data|;
      }
      ok := true;
    }

    // Take another segment if the current one is used up, then as much of it as is wanted.
    method FillAndDo(size: nat) returns (ok: bool, data: seq<byte>)
      requires Valid() && 0 < size <= |Left()|
      modifies this`next, this`nrSegs, this`pg, this`offset, this`len, this`faults
      ensures Valid() && (ok ==> |data| <= size && data + Left() == old(Left()))
      ensures ok ==> data != [] || nrSegs < old(nrSegs)
    {
      data := [];
      if len == 0 {
        SegmentsLeft();
        ok := Fill();
        if !ok {
          return;
        }
      }
      data := Do(size);
      ok := true;
    }

    // fuse_try_move_page for a whole page: the page is replaced by that of the next segment if that one fills it.
    method TryMovePage() returns (ok: bool, moved: bool, newpage: seq<byte>)
      requires Valid() && len == 0 && PAGE_SIZE <= |Left()|
      modifies this`next, this`nrSegs, this`pg, this`offset, this`len, this`faults
      ensures Valid() && (moved ==> ok && |newpage| == PAGE_SIZE && newpage + Left() == old(Left()))
      ensures ok && !moved ==> Left() == old(Left()) && nrSegs < old(nrSegs)
    {
      moved, newpage := false, [];
      var aborted := Interrupted();
      if aborted {
        return false, moved, newpage;
      }
      SegmentsLeft();
      assert segs[next] in segs;
      NextSegment();
      if len != PAGE_SIZE || !steals {
        aborted := Interrupted();
        return !aborted, false, [];
      }
      aborted := Interrupted();
      if aborted {
        return false, moved, newpage;
      }
      newpage := pg;
      assert pg[offset..offset + len] == pg;
      len := 0;
      assert pg[offset..offset + len] == [];
      return true, true, newpage;
    }

    // fuse_copy_page: count bytes of the reply go to the page at offset o, which is cleared first if the rest of it is
    // to be zero.  Whether bytes are copied or the page is replaced, the page then holds the same.
    method CopyPage(page: seq<byte>, o: nat, count: nat, zeroing: bool) returns (ok: bool, page': seq<byte>)
      requires Valid() && |page| == PAGE_SIZE && o + count <= PAGE_SIZE && count <= |Left()|
      modifies this`next, this`nrSegs, this`pg, this`offset, this`len, this`faults
      ensures Valid() && |page'| == PAGE_SIZE
      ensures ok ==> page' == Received(page, o, old(Left())[..count], zeroing) && Left() == old(Left())[count..]
    {
      page' := if zeroing && count < PAGE_SIZE then Zeros(PAGE_SIZE) else page;
      ghost var base := page';
      var got: seq<byte> := [];
      assert Overwrite(base, o, got) == base;
      while |got| < count
        invariant Valid() && |got| <= count && got + Left() == old(Left()) && page' == Overwrite(base, o, got)
        decreases count - |got|, nrSegs
      {
        if len == 0 {
          if movePages && o + |got| == 0 && count == PAGE_SIZE {
            var moved, newpage;
            ok, moved, newpage := TryMovePage();
            if moved {
              page' := newpage;
              MovedPage(page, newpage, Left(), old(Left()), zeroing);
            }
            if !ok || moved {
              return;
            }
          } else {
            SegmentsLeft();
            ok := Fill();
            if !ok {
              return;
            }
          }
        }
        var data := Do(count - |got|);
        assert got + (data + Left()) == (got + data) + Left();
        OverwriteTwice(base, o, got, data);
        page' := Overwrite(page', o + |got|, data);
        got := got + data;
      }
      assert old(Left())[..count] == got && old(Left())[count..] == Left();
      ok := true;
    }

    // fuse_copy_page without a page: count bytes of the reply are passed over.
    method SkipPage(count: nat) returns (ok: bool)
      requires Valid() && count <= |Left()|
      modifies this`next, this`nrSegs, this`pg, this`offset, this`len, this`faults
      ensures Valid() && (ok ==> Left() == old(Left())[count..])
    {
      ghost var val: seq<byte> := [];
      var rest: nat := count;
      while rest > 0
        invariant Valid() && |val| + rest == count && val + Left() == old(Left())
        decreases rest, nrSegs
      {
        var data;
        ok, data := FillAndDo(rest);
        if !ok {
          return;
        }
        assert val + (data + Left()) == (val + data) + Left();
        val := val + data;
        rest := rest - |data|;
      }
      assert old(Left())[count..] == Left();
      ok := true;
    }
  }

  // A page after data was received into it at offset o; with zeroing, the rest of a partly filled page is zero.
  function Received(page: seq<byte>, o: nat, data: seq<byte>, zeroing: bool): (s: seq<byte>)
    requires |page| == PAGE_SIZE && o + |data| <= PAGE_SIZE
    ensures |s| == PAGE_SIZE
  {
    Overwrite(if zeroing && |data| < PAGE_SIZE then Zeros(PAGE_SIZE) else page, o, data)
  }

  lemma MovedPage(page: seq<byte>, newpage: seq<byte>, left: seq<byte>, was: seq<byte>, zeroing: bool)
    requires |page| == |newpage| == PAGE_SIZE && newpage + left == was
    ensures |was| >= PAGE_SIZE && newpage == Received(page, 0, was[..PAGE_SIZE], zeroing) && left == was[PAGE_SIZE..]
  {
    assert was[..PAGE_SIZE] == newpage;
    assert Overwrite(page, 0, newpage) == newpage;
  }

  // What was received is where it was put, and with zeroing every other byte is zero.
  lemma ReceivedBytes(page: seq<byte>, o: nat, data: seq<byte>, zeroing: bool, k: nat)
    requires |page| == PAGE_SIZE && o + |data| <= PAGE_SIZE && k < PAGE_SIZE
    ensures o <= k < o + |data| ==> Received(page, o, data, zeroing)[k] == data[k - o]
    ensures !(o <= k < o + |data|) ==>
              Received(page, o, data, zeroing)[k] == if zeroing && |data| < PAGE_SIZE then 0 else page[k]
  {
  }
}
