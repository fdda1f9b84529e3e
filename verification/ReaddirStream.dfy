// Reading a directory listing, from the cache and from a reply of the server.
module ReaddirStream {
  import opened Basics
  import opened DirentFormat
  import opened ReaddirLayout
  import opened ReaddirCache

  datatype Parsed = FoundErr | FoundNone | FoundSome | FoundAll

  datatype Outcome = Done | Uncached | Failed

  // struct dir_context with the caller's buffer: room more entries fit
  class DirContext {
    var pos: nat
    var room: nat
    var out: seq<Entry>

    constructor (pos: nat, room: nat)
      ensures this.pos == pos && this.room == room && out == []
    {
      this.pos, this.room, out := pos, room, [];
    }

    method Emit(e: Entry) returns (ok: bool)
      modifies this`room, this`out
      ensures ok <==> old(room) > 0
      ensures if ok then room == old(room) - 1 && out == old(out) + [e] else room == old(room) && out == old(out)
    {
      ok := room > 0;
      if ok {
        room, out := room - 1, out + [e];
      }
    }
  }

  // Byte c of the cache is behind j records: at the end of record j - 1, or at record j beyond a page's padding.
  ghost predicate Behind(ls: seq<Dirent>, j: nat, c: nat) {
    j <= |ls| && (c == End(ls, j) || (j < |ls| && c == Start(ls, j)))
  }

  // ff->readdir
  class DirStream {
    var pos: nat
    var cacheOff: nat
    var version: nat

    // The stream is behind j records of the listing.
    ghost predicate At(ls: seq<Dirent>, j: nat)
      reads this
    {
      Behind(ls, j, cacheOff) && pos == Cookie(ls, j)
    }
  }

  // ctx has taken the records i0 .. i of the listing since it had out0.
  ghost predicate Emitted(ctx: DirContext, ls: seq<Dirent>, i0: nat, i: nat, out0: seq<Entry>, room0: nat)
    reads ctx
  {
    && i0 <= i <= |ls| && ctx.pos == Cookie(ls, i) && ctx.out == out0 + Entries(ls[i0..i])
    && ctx.room + (i - i0) == room0
  }

  lemma EntriesStep(ls: seq<Dirent>, i0: nat, i: nat)
    requires i0 <= i < |ls|
    ensures Entries(ls[i0..i + 1]) == Entries(ls[i0..i]) + [EntryOf(ls[i])]
  {
  }

  // ------------------------------------------------ what a cached page shows at an offset

  // How many bytes of page p a reader of the complete cache looks at
  ghost predicate PageSize(ls: seq<Dirent>, p: nat, size: nat) {
    var total := End(ls, |ls|);
    size == (if p == total / PAGE_SIZE then total % PAGE_SIZE else PAGE_SIZE) && p <= total / PAGE_SIZE
  }

  lemma PageOf(s: nat, p: nat, o: nat)
    requires s == p * PAGE_SIZE + o && o < PAGE_SIZE
    ensures s / PAGE_SIZE == p && s % PAGE_SIZE == o
  {
  }

  lemma SizeBound(total: nat, p: nat, e: nat)
    requires p * PAGE_SIZE < e <= total && e <= (p + 1) * PAGE_SIZE && p <= total / PAGE_SIZE
    ensures e - p * PAGE_SIZE <= (if p == total / PAGE_SIZE then total % PAGE_SIZE else PAGE_SIZE) <= PAGE_SIZE
  {
    assert total == total / PAGE_SIZE * PAGE_SIZE + total % PAGE_SIZE;
  }

  lemma EndBelow(ls: seq<Dirent>, j: nat)
    requires Listing(ls) && j <= |ls|
    ensures End(ls, j) <= End(ls, |ls|)
  {
    if j < |ls| {
      EndIncreases(ls, j, |ls|);
    }
  }

  lemma StartFits(ls: seq<Dirent>, j: nat)
    requires Listing(ls) && j < |ls|
    ensures Start(ls, j) % PAGE_SIZE + Len(ls[j]) <= PAGE_SIZE && 32 <= Len(ls[j])
  {
    Lengths(ls[j]);
    PlaceFits(End(ls, j), Len(ls[j]));
  }

  lemma RecordBounds(ls: seq<Dirent>, j: nat, p: nat, o: nat)
    requires Listing(ls) && j < |ls| && Start(ls, j) == p * PAGE_SIZE + o && o < PAGE_SIZE
    ensures o + Len(ls[j]) <= PAGE_SIZE && 32 <= Len(ls[j])
      && Start(ls, j) + Len(ls[j]) == End(ls, j + 1) <= End(ls, |ls|)
    ensures Start(ls, j) / PAGE_SIZE == p && Start(ls, j) % PAGE_SIZE == o
  {
    PageOf(Start(ls, j), p, o);
    StartFits(ls, j);
    EndGrows(ls, j);
    EndBelow(ls, j + 1);
  }

  lemma RecordInSize(ls: seq<Dirent>, j: nat, p: nat, o: nat, size: nat)
    requires Listing(ls) && j < |ls| && Start(ls, j) == p * PAGE_SIZE + o && o < PAGE_SIZE && PageSize(ls, p, size)
    ensures o + Len(ls[j]) <= size <= PAGE_SIZE && 32 <= Len(ls[j]) && Start(ls, j) + Len(ls[j]) == End(ls, j + 1)
    ensures Start(ls, j) / PAGE_SIZE == p && Start(ls, j) % PAGE_SIZE == o
  {
    RecordBounds(ls, j, p, o);
    SizeBound(End(ls, |ls|), p, End(ls, j + 1));
  }

  // At record j, the page shows that record.
  lemma AtRecord(ls: seq<Dirent>, j: nat, p: nat, o: nat, size: nat)
    requires Listing(ls) && j < |ls| && Start(ls, j) == p * PAGE_SIZE + o && o < PAGE_SIZE && PageSize(ls, p, size)
    ensures |Page(ls, |ls|, p)| == PAGE_SIZE && o + Len(ls[j]) <= size <= PAGE_SIZE && 32 <= Len(ls[j])
    ensures HoldsRecord(Page(ls, |ls|, p), o, ls[j]) && Start(ls, j) + Len(ls[j]) == End(ls, j + 1)
  {
    RecordInSize(ls, j, p, o, size);
    RecordAt(ls, |ls|, j);
    ContentSize(ls, |ls|, p);
    StillHeld(Content(ls, |ls|, p), o, ls[j], Zeros(PAGE_SIZE - |Content(ls, |ls|, p)|));
  }

  // A record that does not follow at the end of the one before begins the next page.
  lemma NextPage(ls: seq<Dirent>, j: nat, p: nat, o: nat)
    requires Listing(ls) && j < |ls| && End(ls, j) == p * PAGE_SIZE + o && 0 < o <= PAGE_SIZE
      && Start(ls, j) != End(ls, j)
    ensures o < PAGE_SIZE && Start(ls, j) == (p + 1) * PAGE_SIZE && Start(ls, j) / PAGE_SIZE == p + 1
  {
    Lengths(ls[j]);
    PlaceFits(End(ls, j), Len(ls[j]));
    PageOf((p + 1) * PAGE_SIZE, p + 1, 0);
    if o < PAGE_SIZE {
      PageOf(End(ls, j), p, o);
    }
  }

  lemma BehindSize(ls: seq<Dirent>, j: nat, p: nat, o: nat, size: nat)
    requires Listing(ls) && j <= |ls| && End(ls, j) == p * PAGE_SIZE + o && 0 < o <= size && PageSize(ls, p, size)
    requires j < |ls| ==> Start(ls, j) != End(ls, j)
    ensures size <= PAGE_SIZE && (j < |ls| ==> (p + 1) * PAGE_SIZE == Start(ls, j) && Start(ls, j) / PAGE_SIZE > p)
    ensures size == PAGE_SIZE && j == |ls| ==> o == PAGE_SIZE
    ensures size < PAGE_SIZE ==> j == |ls|
  {
    var total := End(ls, |ls|);
    assert total == total / PAGE_SIZE * PAGE_SIZE + total % PAGE_SIZE;
    if j < |ls| {
      NextPage(ls, j, p, o);
      EndIncreases(ls, j, |ls|);
      DivGrows((p + 1) * PAGE_SIZE, total);
    }
  }

  // Behind the last record of a page there are too few bytes for a record, or zeros.
  lemma BehindRecords(ls: seq<Dirent>, j: nat, p: nat, o: nat, size: nat)
    requires Listing(ls) && j <= |ls| && End(ls, j) == p * PAGE_SIZE + o && 0 < o <= size && PageSize(ls, p, size)
    requires j < |ls| ==> Start(ls, j) != End(ls, j)
    ensures |Page(ls, |ls|, p)| == PAGE_SIZE && size <= PAGE_SIZE
    ensures size - o >= FUSE_NAME_OFFSET ==> NamelenAt(Page(ls, |ls|, p), o) == 0
  {
    BehindSize(ls, j, p, o, size);
    PageEnds(ls, |ls|, j, p);
    var page := Page(ls, |ls|, p);
    if size - o >= FUSE_NAME_OFFSET {
      assert forall k | o <= k < PAGE_SIZE :: page[k] == 0;
      ZeroLe(page[o + 16..o + 20]);
    }
  }

  // What fuse_parse_cache sees behind j records, at the position c on page p: record j with its fields and its
  // length, or the end of the page's records.
  ghost predicate Sees(addr: seq<byte>, o: nat, size: nat, d: Dirent) {
    && o + FUSE_NAME_OFFSET <= |addr| && size - o >= Len(d) >= FUSE_NAME_OFFSET
    && NamelenAt(addr, o) == |d.name| && 1 <= |d.name| <= FUSE_NAME_MAX && o + FUSE_NAME_OFFSET + |d.name| <= |addr|
    && NameAt(addr, o) == d.name && SLASH !in d.name
    && InoAt(addr, o) == d.ino && OffAt(addr, o) == d.off && TypeAt(addr, o) == d.typ
  }

  ghost predicate SeesNone(addr: seq<byte>, o: nat, size: nat) {
    o <= size <= |addr| && (size - o >= FUSE_NAME_OFFSET ==> NamelenAt(addr, o) == 0)
  }

  lemma Look(ls: seq<Dirent>, j: nat, p: nat, o: nat, size: nat)
    requires Listing(ls) && j <= |ls| && o <= size && PageSize(ls, p, size)
    requires p * PAGE_SIZE + o == End(ls, j) || (j < |ls| && p * PAGE_SIZE + o == Start(ls, j))
    requires o == 0 ==> j < |ls| && p * PAGE_SIZE == Start(ls, j)
    ensures size <= |Page(ls, |ls|, p)|
    ensures if j < |ls| && p * PAGE_SIZE + o == Start(ls, j) && o < PAGE_SIZE then
              Sees(Page(ls, |ls|, p), o, size, ls[j]) && Start(ls, j) + Len(ls[j]) == End(ls, j + 1)
            else SeesNone(Page(ls, |ls|, p), o, size)
  {
    if j < |ls| && p * PAGE_SIZE + o == Start(ls, j) && o < PAGE_SIZE {
      AtRecord(ls, j, p, o, size);
      ReadBack(Page(ls, |ls|, p), o, ls[j]);
    } else {
      ContentSize(ls, |ls|, p);
      if o < PAGE_SIZE {
        BehindRecords(ls, j, p, o, size);
      }
    }
  }

  // ------------------------------------------------ fuse_parse_cache

  // The stream is behind j records, at offset o of page p.
  ghost predicate Parsing(ff: DirStream, ls: seq<Dirent>, j: nat, p: nat, o: nat)
    reads ff
  {
    && ff.At(ls, j) && ff.cacheOff == p * PAGE_SIZE + o
    && (o == 0 ==> j < |ls| && p * PAGE_SIZE == Start(ls, j))
  }

  // The page shows no record at offset o.
  ghost predicate PageDone(ls: seq<Dirent>, j: nat, p: nat, o: nat)
    requires j <= |ls|
  {
    !(j < |ls| && p * PAGE_SIZE + o == Start(ls, j) && o < PAGE_SIZE)
  }

  datatype Peek = NoRecord | BadRecord | Rec(len: nat, off: nat, e: Entry)

  // The checks of fuse_parse_cache on the bytes at an offset
  function PeekAt(addr: seq<byte>, offset: nat, size: nat): Peek
    requires offset <= size <= |addr|
  {
    if size - offset < FUSE_NAME_OFFSET || NamelenAt(addr, offset) == 0 then NoRecord
    else
      var namelen := NamelenAt(addr, offset);
      if namelen > FUSE_NAME_MAX || RecLen(namelen) > size - offset || SLASH in NameAt(addr, offset) then BadRecord
      else Rec(RecLen(namelen), OffAt(addr, offset),
               Entry(NameAt(addr, offset), InoAt(addr, offset), TypeAt(addr, offset)))
  }

  // On a page of the complete cache they find record j, or nothing.
  lemma PeekFinds(ls: seq<Dirent>, j: nat, p: nat, o: nat, size: nat)
    requires Listing(ls) && j <= |ls| && o <= size && PageSize(ls, p, size)
    requires p * PAGE_SIZE + o == End(ls, j) || (j < |ls| && p * PAGE_SIZE + o == Start(ls, j))
    requires o == 0 ==> j < |ls| && p * PAGE_SIZE == Start(ls, j)
    ensures size <= |Page(ls, |ls|, p)|
    ensures var r := PeekAt(Page(ls, |ls|, p), o, size);
            if PageDone(ls, j, p, o) then r == NoRecord
            else
              r == Rec(Len(ls[j]), ls[j].off, EntryOf(ls[j])) && 0 < r.len <= size - o
              && p * PAGE_SIZE + o + r.len == End(ls, j + 1)
  {
    Look(ls, j, p, o, size);
  }

  // dir_emit of record i and, unless the caller's buffer is full, the move to its cookie
  method EmitNext(ctx: DirContext, e: Entry, off: nat, ghost ls: seq<Dirent>, ghost i0: nat, ghost i: nat,
                  ghost out0: seq<Entry>, ghost room0: nat)
    returns (ok: bool)
    requires Emitted(ctx, ls, i0, i, out0, room0) && i < |ls| && e == EntryOf(ls[i]) && off == ls[i].off
    modifies ctx
    ensures if ok then Emitted(ctx, ls, i0, i + 1, out0, room0)
      else Emitted(ctx, ls, i0, i, out0, room0) && ctx.room == 0
  {
    ok := ctx.Emit(e);
    if ok {
      EntriesStep(ls, i0, i);
      ctx.pos := off;
    }
  }

  // The stream moves behind record j.
  method PassRecord(ff: DirStream, off: nat, reclen: nat, ghost ls: seq<Dirent>, ghost j: nat, ghost p: nat,
                    ghost o: nat)
    requires Parsing(ff, ls, j, p, o) && j < |ls| && off == ls[j].off && reclen == Len(ls[j]) > 0
    requires p * PAGE_SIZE + o + reclen == End(ls, j + 1)
    modifies ff`pos, ff`cacheOff
    ensures Parsing(ff, ls, j + 1, p, o + reclen)
  {
    ff.pos := off;
    ff.cacheOff := ff.cacheOff + reclen;
  }

  // Where a caller who started at record i0 is, with the stream behind j records: at the stream if anything was emitted
  predicate Tracks(res: Parsed, i0: nat, j: nat, i: nat) {
    j <= i && if i > i0 then res.FoundSome? && j == i else res.FoundNone?
  }

  // One turn of the loop of fuse_parse_cache, at record j: emit it if the caller waits for it, and move on.
  method ReadRecord(ff: DirStream, ctx: DirContext, r: Peek, res0: Parsed, o: nat, ghost ls: seq<Dirent>, ghost i0: nat,
                    ghost j: nat, ghost i: nat, ghost p: nat, ghost out0: seq<Entry>, ghost room0: nat)
    returns (res: Parsed, o': nat, ghost j': nat, ghost i': nat)
    requires Listing(ls) && Parsing(ff, ls, j, p, o) && Emitted(ctx, ls, i0, i, out0, room0) && Tracks(res0, i0, j, i)
    requires j < |ls| && r == Rec(Len(ls[j]), ls[j].off, EntryOf(ls[j])) && r.len > 0
      && p * PAGE_SIZE + o + r.len == End(ls, j + 1)
    modifies ff`pos, ff`cacheOff, ctx
    ensures Emitted(ctx, ls, i0, i', out0, room0) && Parsing(ff, ls, j', p, o')
    ensures if res.FoundAll? then j' == j == i == i' && o' == o && ctx.room == 0
            else j' == j + 1 && o' == o + r.len && Tracks(res, i0, j', i')
  {
    res, o', j', i' := res0, o, j, i;
    if ff.pos == ctx.pos {
      CookieInjective(ls, j, i);
      var ok := EmitNext(ctx, r.e, r.off, ls, i0, i, out0, room0);
      if !ok {
        res := FoundAll;
        return;
      }
      res, i' := FoundSome, i + 1;
    }
    PassRecord(ff, r.off, r.len, ls, j, p, o);
    j', o' := j + 1, o + r.len;
  }

  // The loop of fuse_parse_cache over page p of the complete cache, for a caller at record i0: from there on, as many
  // records of the page as have room are emitted.
  method ParseCache(ff: DirStream, addr: seq<byte>, size: nat, ctx: DirContext, offset0: nat,
                    ghost ls: seq<Dirent>, ghost j0: nat, ghost i0: nat, ghost p: nat)
    returns (res: Parsed, ghost j: nat, ghost i: nat, ghost o: nat)
    requires Listing(ls) && addr == Page(ls, |ls|, p) && PageSize(ls, p, size)
    requires Parsing(ff, ls, j0, p, offset0) && offset0 < size
    requires j0 <= i0 <= |ls| && ctx.pos == Cookie(ls, i0)
    modifies ff`pos, ff`cacheOff, ctx
    ensures j <= |ls| && o <= size && Parsing(ff, ls, j, p, o) && Emitted(ctx, ls, i0, i, old(ctx.out), old(ctx.room))
    ensures if res.FoundAll? then j == i < |ls| && ctx.room == 0 else Tracks(res, i0, j, i) && PageDone(ls, j, p, o)
  {
    var offset: nat := offset0;
    res, j, i := FoundNone, j0, i0;
    assert ls[i0..i0] == [];
    while true
      invariant offset <= size && Parsing(ff, ls, j, p, offset)
      invariant Tracks(res, i0, j, i) && Emitted(ctx, ls, i0, i, old(ctx.out), old(ctx.room))
      decreases |ls| - j
    {
      o := offset;
      PeekFinds(ls, j, p, offset, size);
      var r := PeekAt(addr, offset, size);
      if !r.Rec? {
        res := if r.BadRecord? then FoundErr else res;
        return;
      }
      res, offset, j, i := ReadRecord(ff, ctx, r, res, offset, ls, i0, j, i, p, old(ctx.out), old(ctx.room));
      if res.FoundAll? {
        return;
      }
    }
  }

  // ------------------------------------------------ fuse_readdir_cached

  // How many bytes of its page the reader looks at
  function SizeAt(total: nat, c: nat): nat {
    if c / PAGE_SIZE == total / PAGE_SIZE then total % PAGE_SIZE else PAGE_SIZE
  }

  lemma BehindBound(ls: seq<Dirent>, j: nat, c: nat)
    requires Listing(ls) && Behind(ls, j, c)
    ensures c <= End(ls, |ls|) && (c == End(ls, |ls|) <==> j == |ls|)
  {
    if j < |ls| {
      EndGrows(ls, j);
      EndBelow(ls, j + 1);
    }
  }

  lemma SplitTotal(total: nat, c: nat)
    requires c <= total
    ensures c / PAGE_SIZE <= total / PAGE_SIZE && c == c / PAGE_SIZE * PAGE_SIZE + c % PAGE_SIZE
    ensures c % PAGE_SIZE == SizeAt(total, c) <==> c == total
    ensures c < total ==> c % PAGE_SIZE < SizeAt(total, c)
  {
    DivGrows(c, total);
  }

  lemma AlignedEnd(size: nat, reclen: nat)
    requires size % PAGE_SIZE == 0 && reclen <= PAGE_SIZE
    ensures Place(size, reclen) == size
  {
    PlaceIs(size, reclen);
  }

  // Before the end, there is a page to parse, at an offset where the parser can start.
  lemma Locate(ls: seq<Dirent>, j: nat, c: nat)
    requires Listing(ls) && Behind(ls, j, c)
    ensures c % PAGE_SIZE == SizeAt(End(ls, |ls|), c) <==> j == |ls|
    ensures j < |ls| ==>
              && PageSize(ls, c / PAGE_SIZE, SizeAt(End(ls, |ls|), c)) && c % PAGE_SIZE < SizeAt(End(ls, |ls|), c)
              && c / PAGE_SIZE * PAGE_SIZE < End(ls, |ls|)
              && (c % PAGE_SIZE == 0 ==> c / PAGE_SIZE * PAGE_SIZE == Start(ls, j))
  {
    BehindBound(ls, j, c);
    SplitTotal(End(ls, |ls|), c);
    if j < |ls| && c % PAGE_SIZE == 0 {
      Lengths(ls[j]);
      AlignedEnd(c, Len(ls[j]));
    }
  }

  lemma AlignPage(p: nat, o: nat)
    requires 0 < o <= PAGE_SIZE
    ensures Align(p * PAGE_SIZE + o) == (p + 1) * PAGE_SIZE
  {
  }

  // Behind a full page, the next record begins the next page or the cache ends there.
  lemma Advance(ls: seq<Dirent>, j: nat, p: nat, o: nat, c: nat)
    requires Listing(ls) && c == p * PAGE_SIZE + o && Behind(ls, j, c) && o <= PAGE_SIZE && PageDone(ls, j, p, o)
    requires PageSize(ls, p, PAGE_SIZE) && (o == 0 ==> j < |ls| && p * PAGE_SIZE == Start(ls, j))
    ensures Behind(ls, j, Align(c)) && Align(c) == (p + 1) * PAGE_SIZE
  {
    AlignPage(p, o);
    if o < PAGE_SIZE {
      BehindSize(ls, j, p, o, PAGE_SIZE);
    }
  }

  // Behind the last page there is nothing.
  lemma AtLastPage(ls: seq<Dirent>, j: nat, p: nat, o: nat, size: nat)
    requires Listing(ls) && Behind(ls, j, p * PAGE_SIZE + o) && o <= size < PAGE_SIZE && PageDone(ls, j, p, o)
    requires PageSize(ls, p, size) && (o == 0 ==> j < |ls| && p * PAGE_SIZE == Start(ls, j))
    ensures j == |ls|
  {
    BehindSize(ls, j, p, o, size);
  }

  lemma EntriesJoin(ls: seq<Dirent>, i0: nat, i: nat, i': nat)
    requires i0 <= i <= i' <= |ls|
    ensures Entries(ls[i0..i']) == Entries(ls[i0..i]) + Entries(ls[i..i'])
  {
  }

  lemma EmittedJoin(ctx: DirContext, ls: seq<Dirent>, i0: nat, ip: nat, i: nat, out0: seq<Entry>, room0: nat,
                    out: seq<Entry>, room: nat)
    requires i0 <= ip <= |ls| && out == out0 + Entries(ls[i0..ip]) && room + (ip - i0) == room0
      && Emitted(ctx, ls, ip, i, out, room)
    ensures Emitted(ctx, ls, i0, i, out0, room0)
  {
    EntriesJoin(ls, i0, ip, i);
  }

  datatype PageResult = Full | Last(found: bool) | More | Broken

  // From the position of the stream to the end of its page, and on to the next page if there is one
  method ReadPage(ff: DirStream, ctx: DirContext, addr: seq<byte>, size: nat,
                  ghost ls: seq<Dirent>, ghost j0: nat, ghost i0: nat, ghost p: nat)
    returns (r: PageResult, ghost i: nat, ghost j: nat)
    requires Listing(ls) && ff.At(ls, j0) && j0 < |ls| && j0 <= i0 <= |ls| && ctx.pos == Cookie(ls, i0)
    requires p == ff.cacheOff / PAGE_SIZE && size == SizeAt(End(ls, |ls|), ff.cacheOff) && addr == Page(ls, |ls|, p)
    modifies ff`pos, ff`cacheOff, ctx
    ensures !r.Broken? && ff.At(ls, j) && j <= i && Emitted(ctx, ls, i0, i, old(ctx.out), old(ctx.room))
    ensures r.Full? ==> ctx.room == 0
    ensures r.Last? ==> i == |ls|
    ensures r.More? ==> ff.cacheOff == (p + 1) * PAGE_SIZE
  {
    Locate(ls, j0, ff.cacheOff);
    ghost var o;
    var res;
    res, j, i, o := ParseCache(ff, addr, size, ctx, ff.cacheOff % PAGE_SIZE, ls, j0, i0, p);
    if res.FoundErr? {
      return Broken, i, j;
    }
    if res.FoundAll? {
      return Full, i, j;
    }
    if size == PAGE_SIZE {
      Advance(ls, j, p, o, ff.cacheOff);
      ff.cacheOff := Align(ff.cacheOff);
      return More, i, j;
    }
    AtLastPage(ls, j, p, o, size);
    return Last(res.FoundSome?), i, j;
  }

  // The stream starts over, if the caller or the cache has moved.
  method Rewind(ff: DirStream, away: bool, ghost ls: seq<Dirent>, ghost j0: nat) returns (ghost j: nat)
    requires ff.At(ls, j0)
    modifies ff`pos, ff`cacheOff
    ensures ff.At(ls, j) && j == (if away then 0 else j0) && (!away ==> ff.cacheOff == old(ff.cacheOff))
  {
    j := j0;
    if away {
      ff.pos, ff.cacheOff, j := 0, 0, 0;
    }
  }

  datatype Turn = Stop(r: Outcome) | Again

  // No page of the complete cache has been reclaimed.
  ghost predicate AllPresent(pages: map<nat, seq<byte>>, ls: seq<Dirent>) {
    forall p: nat | p * PAGE_SIZE < End(ls, |ls|) :: p in pages
  }

  // What other threads do before this one takes rdc.lock again, and whether the directory's version or mtime differs
  // then from what it was when the cache was started
  datatype Gap = Gap(ops: seq<Op>, changed: bool)

  function GapAt(env: seq<Gap>, k: nat): Gap { if k < |env| then env[k] else Gap([], false) }

  ghost predicate GapsOk(ls: seq<Dirent>, env: seq<Gap>)
    requires Listing(ls)
  {
    forall g, op | g in env && op in g.ops :: OpOk(ls, op)
  }

  predicate AllHarmless(ops: seq<Op>) { forall op | op in ops :: Harmless(op) }

  // The first section: where the reader goes on, with the version it reads
  method StartTurn(cache: DirCache, ff: DirStream, ghost ls: seq<Dirent>, ghost j0: nat)
    returns (size: nat, ghost j: nat)
    requires cache.Valid(ls) && cache.cached && ff.At(ls, j0)
    modifies ff
    ensures ff.At(ls, j) && ff.version == cache.version && size == SizeAt(End(ls, |ls|), ff.cacheOff)
    ensures if old(ff.version) == cache.version then j == j0 && ff.cacheOff == old(ff.cacheOff) else j == 0
  {
    j := Rewind(ff, ff.version != cache.version, ls, j0);
    if ff.pos == 0 {
      ff.version := cache.version;
    }
    size := SizeAt(cache.size, ff.cacheOff);
  }

  // The second section: the page is found and locked, and the version checked again.
  method PageTurn(cache: DirCache, ff: DirStream, ctx: DirContext, size: nat, ghost ls: seq<Dirent>, ghost j0: nat,
                  ghost i0: nat)
    returns (turn: Turn, ghost i: nat, ghost j: nat)
    requires cache.Valid(ls) && ff.At(ls, j0) && j0 < |ls| && j0 <= i0 <= |ls| && ctx.pos == Cookie(ls, i0)
    requires size == SizeAt(End(ls, |ls|), ff.cacheOff) && (cache.version == ff.version ==> cache.cached)
    modifies cache, ff`pos, ff`cacheOff, ctx
    ensures cache.Valid(ls) && ff.At(ls, j) && j <= i && Emitted(ctx, ls, i0, i, old(ctx.out), old(ctx.room))
    ensures cache.pages == old(cache.pages)
    ensures cache.Now() == old(cache.Now()) || (turn.Again? && !cache.cached && !AllPresent(cache.pages, ls))
    ensures turn.Again? && cache.version == ff.version ==> ff.cacheOff > old(ff.cacheOff)
    ensures turn.Stop? ==> !turn.r.Failed? && (turn.r.Done? ==> i == |ls| || ctx.room == 0)
    ensures turn.Stop? && turn.r.Uncached? ==> cache.cached && i == |ls|
  {
    i, j := i0, j0;
    assert ls[i0..i0] == [];
    Locate(ls, j, ff.cacheOff);
    var index := ff.cacheOff / PAGE_SIZE;
    if index !in cache.pages {
      if cache.version == ff.version {
        cache.Reset(ls);
      }
      return Again, i, j;
    }
    if ff.version != cache.version {
      return Again, i, j;
    }
    var next;
    next, i, j := ReadPage(ff, ctx, cache.pages[index], size, ls, j, i0, index);
    turn := match next
      case Broken => Stop(Failed)
      case Full => Stop(Done)
      case Last(found) => Stop(if found then Done else Uncached)
      case More => Again;
  }

  // One turn of the retry loop on a complete cache that is still good, from the check of the version on; ops is what
  // others do between the two sections.
  method CachedTurn(cache: DirCache, ff: DirStream, ctx: DirContext, ops: seq<Op>, ghost ls: seq<Dirent>, ghost j0: nat,
                    ghost i0: nat)
    returns (turn: Turn, ghost i: nat, ghost j: nat)
    requires cache.Valid(ls) && cache.cached && ff.At(ls, j0) && j0 <= i0 <= |ls| && ctx.pos == Cookie(ls, i0)
    requires forall op | op in ops :: OpOk(ls, op)
    modifies cache, ff, ctx
    ensures cache.Valid(ls) && ff.At(ls, j) && j <= i && Emitted(ctx, ls, i0, i, old(ctx.out), old(ctx.room))
    ensures AllHarmless(ops) && old(AllPresent(cache.pages, ls)) ==> cache.cached && AllPresent(cache.pages, ls)
    ensures turn.Again? && ops == [] && cache.cached ==>
              cache.version == old(cache.version) == ff.version &&
              (old(ff.version) == cache.version ==> ff.cacheOff > old(ff.cacheOff))
    ensures turn.Stop? ==> !turn.r.Failed? && (turn.r.Done? ==> i == |ls| || ctx.room == 0)
    ensures turn.Stop? && turn.r.Uncached? ==> cache.cached && i == |ls|
  {
    i := i0;
    assert ls[i0..i0] == [];
    var size;
    size, j := StartTurn(cache, ff, ls, j0);
    Locate(ls, j, ff.cacheOff);
    Others(cache, ops, ls);
    if ff.cacheOff % PAGE_SIZE == size {
      return Stop(Done), i, j;
    }
    turn, i, j := PageTurn(cache, ff, ctx, size, ls, j, i0);
  }

  // Others only add, and the listing is not found changed at the beginning of the directory.
  predicate KeepsAll(env: seq<Gap>, i0: nat) { forall g | g in env :: GapKeeps(g, i0) }

  predicate GapKeeps(g: Gap, i0: nat) { AllHarmless(g.ops) && (i0 == 0 ==> !g.changed) }

  lemma GapAtOk(ls: seq<Dirent>, env: seq<Gap>, k: nat, i0: nat)
    requires Listing(ls) && GapsOk(ls, env)
    ensures (forall op | op in GapAt(env, k).ops :: OpOk(ls, op)) && (KeepsAll(env, i0) ==> GapKeeps(GapAt(env, k), i0))
  {
    if k < |env| {
      assert env[k] in env;
    }
  }

  // One turn from the label retry on, for a caller who started at record i0 and has come to i1; g1 and g2 are the gaps
  // before and within it.
  method RetryTurn(cache: DirCache, ff: DirStream, ctx: DirContext, g1: Gap, g2: Gap, ghost ls: seq<Dirent>,
                   ghost j0: nat, ghost i0: nat, ghost i1: nat, ghost out0: seq<Entry>, ghost room0: nat,
                   ghost whole: bool)
    returns (turn: Turn, ghost i: nat, ghost j: nat)
    requires cache.Valid(ls) && ff.At(ls, j0) && j0 <= i1 && Emitted(ctx, ls, i0, i1, out0, room0)
    requires (forall op | op in g1.ops :: OpOk(ls, op)) && forall op | op in g2.ops :: OpOk(ls, op)
    requires whole ==> cache.cached && AllPresent(cache.pages, ls) && GapKeeps(g1, i0) && GapKeeps(g2, i0)
    modifies cache, ff, ctx
    ensures cache.Valid(ls) && ff.At(ls, j) && j <= i && Emitted(ctx, ls, i0, i, out0, room0)
    ensures whole ==> cache.cached && AllPresent(cache.pages, ls)
    ensures turn.Stop? ==> !turn.r.Failed? && (turn.r.Done? ==> i == |ls| || ctx.room == 0)
    ensures turn.Stop? && turn.r.Uncached? && cache.cached ==> i == |ls|
    ensures turn.Again? && g1.ops == [] && g2.ops == [] ==> old(cache.cached)
    ensures turn.Again? && g1.ops == [] && g2.ops == [] && cache.cached ==>
              cache.version == old(cache.version) == ff.version
                && (old(ff.version) == cache.version ==> ff.cacheOff > old(ff.cacheOff))
  {
    i, j := i1, j0;
    Others(cache, g1.ops, ls);
    if !cache.cached {
      return Stop(Uncached), i, j;
    }
    if ctx.pos == 0 && g1.changed {
      CookieInjective(ls, i1, 0);
      cache.Reset(ls);
      return Stop(Uncached), i, j;
    }
    ghost var out, room := ctx.out, ctx.room;
    turn, i, j := CachedTurn(cache, ff, ctx, g2.ops, ls, j0, i1);
    EmittedJoin(ctx, ls, i0, i1, i, out0, room0, out, room);
  }

  // fuse_readdir_cached for a caller at record i0 of the listing, while other threads add records, complete, empty and
  // refill the cache and pages are reclaimed, wherever rdc.lock and the page's lock are free.  Whatever they do, and
  // however the caller's buffer cuts it, what is emitted is what follows i0 in the listing.  From a cache that is
  // complete from the start, and from which nothing is taken away, it is everything that has room.
  method ReaddirCached(cache: DirCache, ff: DirStream, ctx: DirContext, env: seq<Gap>,
                       ghost ls: seq<Dirent>, ghost j0: nat, ghost i0: nat)
    returns (r: Outcome, ghost i: nat, ghost j: nat)
    requires cache.Valid(ls) && ff.At(ls, j0) && i0 <= |ls| && ctx.pos == Cookie(ls, i0) && GapsOk(ls, env)
    modifies cache, ff, ctx
    ensures cache.Valid(ls) && ff.At(ls, j) && !r.Failed?
    ensures Emitted(ctx, ls, i0, i, old(ctx.out), old(ctx.room))
    ensures r.Done? ==> i == |ls| || ctx.room == 0
    ensures r.Uncached? && cache.cached ==> i == |ls|
    ensures old(cache.cached && AllPresent(cache.pages, ls)) && KeepsAll(env, i0) ==>
              cache.cached && (i == |ls| || ctx.room == 0)
  {
    i := i0;
    assert ls[i0..i0] == [];
    if ff.pos == ctx.pos {
      CookieInjective(ls, j0, i0);
    }
    j := Rewind(ff, ff.pos != ctx.pos, ls, j0);
    var k: nat := 0;
    ghost var whole := cache.cached && AllPresent(cache.pages, ls) && KeepsAll(env, i0);
    while true
      invariant cache.Valid(ls) && ff.At(ls, j) && j <= i && Emitted(ctx, ls, i0, i, old(ctx.out), old(ctx.room))
      invariant whole ==> cache.cached && AllPresent(cache.pages, ls)
      decreases if k < |env| then |env| - k
        else 0, cache.cached, ff.version != cache.version, End(ls, |ls|) - ff.cacheOff
    {
      BehindBound(ls, j, ff.cacheOff);
      GapAtOk(ls, env, k, i0);
      GapAtOk(ls, env, k + 1, i0);
      var turn;
      turn, i, j := RetryTurn(cache, ff, ctx, GapAt(env, k), GapAt(env, k + 1), ls, j, i0, i, old(ctx.out),
                              old(ctx.room), whole);
      BehindBound(ls, j, ff.cacheOff);
      k := k + 2;
      if turn.Stop? {
        r := turn.r;
        return;
      }
    }
  }

  // ------------------------------------------------ parse_dirfile

  // The server's reply with the records a .. b of the listing
  function Records(ls: seq<Dirent>, a: nat, b: nat): seq<byte>
    requires a <= b <= |ls| && forall j | 0 <= j < |ls| :: Valid(ls[j])
    decreases b - a
  {
    if a == b then [] else Record(ls[a]) + Records(ls, a + 1, b)
  }

  datatype Head = BadHead | Partial | Whole

  // What parse_dirfile finds at the head of the rest of a reply: its checks, in its order
  function HeadOf(buf: seq<byte>): Head
    requires |buf| >= FUSE_NAME_OFFSET
  {
    var namelen := NamelenAt(buf, 0);
    if namelen == 0 || namelen > FUSE_NAME_MAX then BadHead
    else if RecLen(namelen) > |buf| then Partial
    else if SLASH in NameAt(buf, 0) then BadHead
    else Whole
  }

  // No further record can be taken from the rest of a reply ...
  predicate Stops(tail: seq<byte>) { |tail| < FUSE_NAME_OFFSET || !HeadOf(tail).Whole? }

  // ... and it is an error.
  predicate Malformed(tail: seq<byte>) { |tail| >= FUSE_NAME_OFFSET && HeadOf(tail).BadHead? }

  lemma HeadOfRecord(d: Dirent, rest: seq<byte>)
    requires Valid(d)
    ensures var buf := Record(d) + rest;
            |buf| >= FUSE_NAME_OFFSET && HeadOf(buf) == Whole && RecLen(NamelenAt(buf, 0)) == Len(d) <= |buf| &&
            DirentAt(buf, 0) == d && buf[Len(d)..] == rest
  {
    var buf := Record(d) + rest;
    Lengths(d);
    assert buf[0..Len(d)] == Record(d);
    ReadBack(buf, 0, d);
    DecodeRecord(buf, 0, d);
  }

  lemma RecordsHead(ls: seq<Dirent>, a: nat, b: nat, tail: seq<byte>)
    requires Listing(ls) && a < b <= |ls|
    ensures Records(ls, a, b) + tail == Record(ls[a]) + (Records(ls, a + 1, b) + tail)
  {
  }

  // The first record of what is left of the reply
  lemma HeadRecord(ls: seq<Dirent>, a: nat, b: nat, tail: seq<byte>, rest: seq<byte>, buf: seq<byte>)
    requires Listing(ls) && a < b <= |ls| && rest == Records(ls, a + 1, b) + tail && buf == Records(ls, a, b) + tail
    ensures |buf| >= FUSE_NAME_OFFSET && HeadOf(buf) == Whole && RecLen(NamelenAt(buf, 0)) == Len(ls[a]) <= |buf|
    ensures DirentAt(buf, 0) == ls[a] && buf[Len(ls[a])..] == rest
  {
    RecordsHead(ls, a, b, tail);
    HeadOfRecord(ls[a], rest);
  }

  // The page that record k continues is present.
  predicate Reachable(ls: seq<Dirent>, k: nat, pages: map<nat, seq<byte>>) {
    k < |ls| ==> Start(ls, k) % PAGE_SIZE == 0 || Start(ls, k) / PAGE_SIZE in pages
  }

  // The cache ends at record i and can take it.
  ghost predicate Filling(cache: DirCache, ls: seq<Dirent>, i: nat)
    reads cache
  {
    cache.held == i && !cache.cached && Reachable(ls, i, cache.pages)
  }

  // The next record continues the page of this one or begins one.
  lemma NextReachable(ls: seq<Dirent>, k: nat)
    requires Listing(ls) && k + 1 < |ls|
    ensures Start(ls, k + 1) % PAGE_SIZE == 0 || Start(ls, k + 1) / PAGE_SIZE == Start(ls, k) / PAGE_SIZE
  {
    StartFits(ls, k);
    EndGrows(ls, k);
    Lengths(ls[k + 1]);
    PlaceFits(End(ls, k + 1), Len(ls[k + 1]));
    SamePage(Start(ls, k), Len(ls[k]));
  }

  lemma SamePage(s: nat, n: nat)
    requires s % PAGE_SIZE + n <= PAGE_SIZE && n > 0
    ensures (s + n) % PAGE_SIZE == 0 || (s + n) / PAGE_SIZE == s / PAGE_SIZE
  {
  }

  // The second half of fuse_add_dirent_to_cache for record i, unless it would leave a stray page
  method CommitNext(cache: DirCache, d: Dirent, ghost at: nat, slot: Slot, memory: bool, junk: seq<byte>,
                    ghost ls: seq<Dirent>, ghost i: nat)
    requires cache.Valid(ls) && i < |ls| && d == ls[i] && at == Cookie(ls, i) && |junk| == PAGE_SIZE
    requires SlotOk(ls, slot, at, d) && SlotFree(slot, d)
    modifies cache`size, cache`pos, cache`pages, cache`held
    ensures cache.Valid(ls) && (cache.held == old(cache.held) || cache.held == old(cache.held) + 1)
    ensures old(cache.held) == i && Reachable(ls, i, old(cache.pages)) &&
            Fits(slot, cache.version, old(cache.size)) && memory ==>
              cache.held == i + 1 && !cache.cached && Reachable(ls, i + 1, cache.pages)
  {
    if !Strays(slot, cache.version, cache.size, cache.pages, memory) {
      SlotIndex(ls, i, slot, at, d);
      cache.CommitAdd(ls, d, at, slot, memory, junk);
      if i + 1 < |ls| {
        NextReachable(ls, i);
      }
    }
  }

  // fuse_add_dirent_to_cache.  before and between: what other threads do until it takes rdc.lock for the first and for
  // the second time.
  method AddToCache(cache: DirCache, d: Dirent, at: nat, memory: bool, junk: seq<byte>, before: seq<Op>,
                    between: seq<Op>,
                    ghost ls: seq<Dirent>, ghost i: nat)
    requires cache.Valid(ls) && i < |ls| && d == ls[i] && at == Cookie(ls, i) && |junk| == PAGE_SIZE
    requires (forall op | op in before :: OpOk(ls, op)) && forall op | op in between :: OpOk(ls, op)
    modifies cache
    ensures cache.Valid(ls)
    ensures before == [] && between == [] ==>
              && cache.held >= old(cache.held)
              && (old(Filling(cache, ls, i)) && memory ==> Filling(cache, ls, i + 1))
  {
    Others(cache, before, ls);
    var go, slot := cache.PrepareAdd(ls, d, at, i);
    if go {
      Others(cache, between, ls);
      CommitNext(cache, d, at, slot, memory, junk, ls, i);
    }
  }

  lemma SlotIndex(ls: seq<Dirent>, i: nat, slot: Slot, at: nat, d: Dirent)
    requires Listing(ls) && i < |ls| && SlotOk(ls, slot, at, d) && at == Cookie(ls, i)
    ensures slot.index == Start(ls, i) / PAGE_SIZE && slot.offset == Start(ls, i) % PAGE_SIZE
  {
    var k :| 0 <= k < |ls| && ls[k] == d && Cookie(ls, k) == at && slot.size == End(ls, k) &&
      slot.index == Start(ls, k) / PAGE_SIZE && slot.offset == Start(ls, k) % PAGE_SIZE;
    CookieInjective(ls, k, i);
  }

  // fuse_emit: the record at the caller's position goes to the cache, if it goes at its end, and to the caller.
  method EmitAndCache(cache: DirCache, ctx: DirContext, d: Dirent, caching: bool, memory: bool, junk: seq<byte>,
                      before: seq<Op>, between: seq<Op>,
                      ghost ls: seq<Dirent>, ghost i0: nat, ghost i: nat, ghost out0: seq<Entry>, ghost room0: nat)
    returns (ok: bool)
    requires cache.Valid(ls) && Emitted(ctx, ls, i0, i, out0, room0) && i < |ls| && d == ls[i] && |junk| == PAGE_SIZE
    requires (forall op | op in before :: OpOk(ls, op)) && forall op | op in between :: OpOk(ls, op)
    modifies cache, ctx
    ensures cache.Valid(ls)
    ensures before == [] && between == [] ==>
              cache.held >= old(cache.held)
                && (old(Filling(cache, ls, i)) && memory && caching ==> Filling(cache, ls, i + 1))
    ensures if ok then Emitted(ctx, ls, i0, i + 1, out0, room0)
      else Emitted(ctx, ls, i0, i, out0, room0) && ctx.room == 0
  {
    if caching {
      AddToCache(cache, d, ctx.pos, memory, junk, before, between, ls, i);
    }
    ok := EmitNext(ctx, EntryOf(d), d.off, ls, i0, i, out0, room0);
  }

  datatype Taken = Next | Stopped | Refused

  // Before a turn of the loop: the records i .. e of the listing and tail are left in buf.
  ghost predicate Replying(cache: DirCache, ctx: DirContext, buf: seq<byte>, ls: seq<Dirent>, i0: nat, i: nat, e: nat,
                           tail: seq<byte>, out0: seq<Entry>, room0: nat, filling: bool)
    reads cache, ctx
  {
    && cache.Valid(ls) && i <= e <= |ls| && buf == Records(ls, i, e) + tail && Stops(tail)
    && Emitted(ctx, ls, i0, i, out0, room0) && (filling ==> Filling(cache, ls, i))
  }

  method ReplyTurn(cache: DirCache, ctx: DirContext, buf: seq<byte>, how: Filler, k: nat, ghost ls: seq<Dirent>,
                   ghost i0: nat, ghost i: nat, ghost e: nat, ghost tail: seq<byte>, ghost out0: seq<Entry>,
                   ghost room0: nat,
                   ghost filling: bool)
    returns (t: Taken, rest: seq<byte>)
    requires Replying(cache, ctx, buf, ls, i0, i, e, tail, out0, room0, filling) && |buf| >= FUSE_NAME_OFFSET
    requires how.Ok(ls) && (filling ==> how.memory && how.caching && how.gaps == [])
    modifies cache, ctx
    ensures cache.Valid(ls)
    ensures t.Next? ==>
              |rest| < |buf| && i < e && Replying(cache, ctx, rest, ls, i0, i + 1, e, tail, out0, room0, filling)
    ensures !t.Next? ==>
              && Emitted(ctx, ls, i0, i, out0, room0) && (i == e || ctx.room == 0)
              && (t.Refused? <==> i == e && Malformed(tail))
    ensures !t.Next? && filling ==> cache.held >= i
  {
    rest := buf;
    if i == e {
      assert buf == tail;
    } else {
      HeadRecord(ls, i, e, tail, Records(ls, i + 1, e) + tail, buf);
    }
    var head := HeadOf(buf);
    if !head.Whole? {
      t := if head.BadHead? then Refused else Stopped;
      return;
    }
    var reclen := RecLen(NamelenAt(buf, 0));
    GapOpsOk(ls, how.gaps, 2 * k);
    GapOpsOk(ls, how.gaps, 2 * k + 1);
    var ok := EmitAndCache(cache, ctx, DirentAt(buf, 0), how.caching, how.memory, how.junk, GapAt(how.gaps, 2 * k).ops,
                           GapAt(how.gaps, 2 * k + 1).ops, ls, i0, i, out0, room0);
    t, rest := if ok then Next else Stopped, buf[reclen..];
  }

  lemma GapOpsOk(ls: seq<Dirent>, gaps: seq<Gap>, k: nat)
    requires Listing(ls) && GapsOk(ls, gaps)
    ensures forall op | op in GapAt(gaps, k).ops :: OpOk(ls, op)
  {
    if k < |gaps| {
      assert gaps[k] in gaps;
    }
  }

  lemma NothingLeft(ls: seq<Dirent>, i: nat, e: nat, tail: seq<byte>)
    requires Listing(ls) && i <= e <= |ls| && |Records(ls, i, e) + tail| < FUSE_NAME_OFFSET
    ensures i == e && !Malformed(tail)
  {
  }

  // How a reply is entered into the cache: whether it is at all (FOPEN_CACHE_DIR), whether there is memory for new
  // pages and what they hold, and what other threads do in the gaps.
  datatype Filler = Filler(caching: bool, memory: bool, junk: seq<byte>, gaps: seq<Gap>) {
    ghost predicate Ok(ls: seq<Dirent>) { Listing(ls) && |junk| == PAGE_SIZE && GapsOk(ls, gaps) }
  }

  // parse_dirfile on a reply with the records i0 .. e of the listing and then something that is not a whole valid
  // record, while other threads work on the cache: the records are emitted up to the caller's room, and it is an error
  // exactly if all of them are and what follows is malformed.  Undisturbed, a cache that ended where the reply begins
  // then holds every record that was emitted.
  method ParseDirfile(cache: DirCache, ctx: DirContext, reply: seq<byte>, how: Filler,
                      ghost ls: seq<Dirent>, ghost i0: nat, ghost e: nat, ghost tail: seq<byte>)
    returns (ok: bool, ghost i: nat)
    requires cache.Valid(ls) && i0 <= e <= |ls| && reply == Records(ls, i0, e) + tail && Stops(tail)
    requires ctx.pos == Cookie(ls, i0) && how.Ok(ls)
    modifies cache, ctx
    ensures i0 <= i <= e && cache.Valid(ls)
    ensures Emitted(ctx, ls, i0, i, old(ctx.out), old(ctx.room)) && (i == e || ctx.room == 0)
    ensures ok <==> i < e || !Malformed(tail)
    ensures old(Filling(cache, ls, i0)) && how.memory && how.caching && how.gaps == [] ==> cache.held >= i
  {
    i := i0;
    var buf, k := reply, 0;
    assert ls[i0..i0] == [];
    ghost var filling := Filling(cache, ls, i0) && how.memory && how.caching && how.gaps == [];
    ghost var out0, room0 := ctx.out, ctx.room;
    while |buf| >= FUSE_NAME_OFFSET
      invariant Replying(cache, ctx, buf, ls, i0, i, e, tail, out0, room0, filling)
      decreases |buf|
    {
      var t;
      t, buf := ReplyTurn(cache, ctx, buf, how, k, ls, i0, i, e, tail, out0, room0, filling);
      if !t.Next? {
        return !t.Refused?, i;
      }
      i, k := i + 1, k + 1;
    }
    NothingLeft(ls, i, e, tail);
    ok := true;
  }
}
