// The readdir cache of readdir.c for a directory whose listing ls does not change.
//
// Each section that readdir.c runs under rdc.lock or the lock of a cached page is one method that keeps the
// cache's invariant from any state that satisfies it, whatever other threads have done since the section before it;
// but for one: a late addition may leave behind a page it has created and not filled (StrayPage).
module ReaddirCache {
  import opened Basics
  import opened DirentFormat
  import opened ReaddirLayout

  // What dir_emit is given
  datatype Entry = Entry(name: seq<byte>, ino: nat, typ: nat)

  function EntryOf(d: Dirent): Entry { Entry(d.name, d.ino, d.typ) }

  function Entries(ds: seq<Dirent>): seq<Entry> { seq(|ds|, i requires 0 <= i < |ds| => EntryOf(ds[i])) }

  // ------------------------------------------------ pages

  // A page that is present and lies within the cache holds the records of the listing that belong there, then zeros.
  ghost predicate PagesOk(ls: seq<Dirent>, k: nat, pages: map<nat, seq<byte>>)
    requires Listing(ls) && k <= |ls|
  {
    && (forall p | p in pages :: |pages[p]| == PAGE_SIZE)
    && (forall p | p in pages && p * PAGE_SIZE < End(ls, k) :: pages[p] == Page(ls, k, p))
  }

  lemma FreshPage(ls: seq<Dirent>, k: nat)
    requires Listing(ls) && k < |ls| && Start(ls, k) % PAGE_SIZE == 0
    ensures Len(ls[k]) <= PAGE_SIZE
    ensures Overwrite(Zeros(PAGE_SIZE), 0, Record(ls[k])) == Page(ls, k + 1, Start(ls, k) / PAGE_SIZE)
  {
    var p, rec := Start(ls, k) / PAGE_SIZE, Record(ls[k]);
    Lengths(ls[k]);
    StartSize(ls, k);
    assert Content(ls, k, p) == [] && Content(ls, k + 1, p) == [] + rec == rec;
    assert Overwrite(Zeros(PAGE_SIZE), 0, rec) == rec + Zeros(PAGE_SIZE - |rec|);
  }

  lemma FilledPage(ls: seq<Dirent>, k: nat)
    requires Listing(ls) && k < |ls|
    ensures var p, o := Start(ls, k) / PAGE_SIZE, Start(ls, k) % PAGE_SIZE;
            && o + Len(ls[k]) <= PAGE_SIZE && |Page(ls, k, p)| == PAGE_SIZE
            && Overwrite(Page(ls, k, p), o, Record(ls[k])) == Page(ls, k + 1, p)
  {
    var p, o := Start(ls, k) / PAGE_SIZE, Start(ls, k) % PAGE_SIZE;
    Lengths(ls[k]);
    PlaceFits(End(ls, k), Len(ls[k]));
    StartSize(ls, k);
    var c, rec := Content(ls, k, p), Record(ls[k]);
    assert Overwrite(c + Zeros(PAGE_SIZE - o), o, rec) == c + rec + Zeros(PAGE_SIZE - o - |rec|);
  }

  // The pages below the one that record k goes to are all in use.
  lemma PagesBelow(ls: seq<Dirent>, k: nat, p: nat)
    requires Listing(ls) && k < |ls| && p * PAGE_SIZE < End(ls, k + 1) && p != Start(ls, k) / PAGE_SIZE
    ensures p * PAGE_SIZE < End(ls, k) && Page(ls, k + 1, p) == Page(ls, k, p)
  {
    Lengths(ls[k]);
    PlaceFits(End(ls, k), Len(ls[k]));
  }

  lemma AddKeeps(ls: seq<Dirent>, k: nat, pages: map<nat, seq<byte>>, page: seq<byte>)
    requires Listing(ls) && k < |ls| && PagesOk(ls, k, pages) && page == Page(ls, k + 1, Start(ls, k) / PAGE_SIZE)
    requires |page| == PAGE_SIZE
    ensures PagesOk(ls, k + 1, pages[Start(ls, k) / PAGE_SIZE := page])
  {
    forall p | p in pages && p * PAGE_SIZE < End(ls, k + 1) && p != Start(ls, k) / PAGE_SIZE
      ensures pages[p] == Page(ls, k + 1, p)
    {
      PagesBelow(ls, k, p);
    }
  }

  // Writing record k to its place in the page that is there, or in a cleared page, keeps the pages right.
  lemma WrittenKeeps(ls: seq<Dirent>, k: nat, pages: map<nat, seq<byte>>, page: seq<byte>)
    requires Listing(ls) && k < |ls| && PagesOk(ls, k, pages)
    requires var p := Start(ls, k) / PAGE_SIZE;
             if Start(ls, k) % PAGE_SIZE == 0 then page == Zeros(PAGE_SIZE) else p in pages && page == pages[p]
    ensures var p, o := Start(ls, k) / PAGE_SIZE, Start(ls, k) % PAGE_SIZE;
            && |page| == PAGE_SIZE && o + Len(ls[k]) <= PAGE_SIZE
            && PagesOk(ls, k + 1, pages[p := Overwrite(page, o, Record(ls[k]))])
    ensures Start(ls, k) + Len(ls[k]) == End(ls, k + 1)
  {
    FilledPage(ls, k);
    EndGrows(ls, k);
    if Start(ls, k) % PAGE_SIZE == 0 {
      FreshPage(ls, k);
    } else {
      OffsetInUse(ls, k);
    }
    AddKeeps(ls, k, pages, Overwrite(page, Start(ls, k) % PAGE_SIZE, Record(ls[k])));
  }

  // Where fuse_add_dirent_to_cache is going to write, decided before it locks the page
  datatype Slot = Slot(version: nat, size: nat, index: nat, offset: nat)

  // It was decided when the cache held some k records and ended at directory position at.
  ghost predicate SlotOk(ls: seq<Dirent>, slot: Slot, at: nat, d: Dirent)
    requires Listing(ls)
  {
    exists k :: 0 <= k < |ls| && ls[k] == d && Cookie(ls, k) == at && slot.size == End(ls, k) &&
      slot.index == Start(ls, k) / PAGE_SIZE && slot.offset == Start(ls, k) % PAGE_SIZE
  }

  lemma SlotPlace(size: nat, reclen: nat)
    ensures var s := Place(size, reclen);
            if size % PAGE_SIZE + reclen > PAGE_SIZE then s / PAGE_SIZE == size / PAGE_SIZE + 1 && s % PAGE_SIZE == 0
            else s / PAGE_SIZE == size / PAGE_SIZE && s % PAGE_SIZE == size % PAGE_SIZE
  {
    PlaceIs(size, reclen);
  }

  // An addition that finds the cache as it left it: the record is the next one, and its page is right with it.
  lemma SlotFits(ls: seq<Dirent>, k: nat, pages: map<nat, seq<byte>>, slot: Slot, at: nat, d: Dirent, page: seq<byte>)
    requires Listing(ls) && k <= |ls| && PagesOk(ls, k, pages) && SlotOk(ls, slot, at, d) && slot.size == End(ls, k)
    requires if slot.offset == 0 then page == Zeros(PAGE_SIZE) else slot.index in pages && page == pages[slot.index]
    ensures k < |ls| && ls[k] == d && Cookie(ls, k) == at
    ensures Valid(d) && |page| == PAGE_SIZE && slot.offset + Len(d) <= PAGE_SIZE
    ensures PagesOk(ls, k + 1, pages[slot.index := Overwrite(page, slot.offset, Record(d))])
    ensures slot.index * PAGE_SIZE + slot.offset + Len(d) == End(ls, k + 1)
  {
    var j :| 0 <= j < |ls| && ls[j] == d && Cookie(ls, j) == at && slot.size == End(ls, j) &&
      slot.index == Start(ls, j) / PAGE_SIZE && slot.offset == Start(ls, j) % PAGE_SIZE;
    EndInjective(ls, j, k);
    WrittenKeeps(ls, k, pages, page);
  }

  // A new page beside those that are right
  lemma CreatedKeeps(ls: seq<Dirent>, k: nat, pages: map<nat, seq<byte>>, index: nat, junk: seq<byte>)
    requires Listing(ls) && k <= |ls| && PagesOk(ls, k, pages) && index !in pages && |junk| == PAGE_SIZE
    ensures PagesOk(ls, k, pages[index := junk]) <==> (index * PAGE_SIZE < End(ls, k) ==> junk == Page(ls, k, index))
  {
    var pages' := pages[index := junk];
    assert forall p | p in pages' && p != index :: p in pages && pages'[p] == pages[p];
    assert pages'[index] == junk;
  }

  // fi->rdc and the pages; held is how many records of the listing are in the cache.
  datatype Rdc = Rdc(cached: bool, size: nat, pos: nat, version: nat, pages: map<nat, seq<byte>>, held: nat)

  // The cache holds a contiguous chain of records from position 0, all of them if it is marked complete.
  ghost predicate RdcOk(ls: seq<Dirent>, v: Rdc) {
    && Listing(ls) && v.held <= |ls| && v.size == End(ls, v.held) && v.pos == Cookie(ls, v.held)
    && PagesOk(ls, v.held, v.pages) && (v.cached ==> v.held == |ls|)
  }

  // Whether an addition prepared earlier finds the cache as it left it
  predicate Fits(slot: Slot, version: nat, size: nat) { version == slot.version && size == slot.size }

  // find_lock_page, or at the start of a page find_or_create_page, which needs memory for a new one
  predicate Gets(slot: Slot, pages: map<nat, seq<byte>>, memory: bool) {
    slot.index in pages || (slot.offset == 0 && memory)
  }

  // A page within the cache is created but, the cache having changed, not filled.
  predicate Strays(slot: Slot, version: nat, size: nat, pages: map<nat, seq<byte>>, memory: bool) {
    slot.index !in pages && slot.offset == 0 && memory && !Fits(slot, version, size) && slot.index * PAGE_SIZE < size
  }

  predicate SlotFree(slot: Slot, d: Dirent) { Valid(d) && slot.offset + Len(d) <= PAGE_SIZE }

  // What the second half of fuse_add_dirent_to_cache does; junk: what a new page holds
  function CommitOf(v: Rdc, d: Dirent, slot: Slot, memory: bool, junk: seq<byte>): Rdc
    requires SlotFree(slot, d) && |junk| == PAGE_SIZE && forall p | p in v.pages :: |v.pages[p]| == PAGE_SIZE
  {
    if !Gets(slot, v.pages, memory) then v
    else
      var pages := if slot.index in v.pages then v.pages else v.pages[slot.index := junk];
      if !Fits(slot, v.version, v.size) then v.(pages := pages)
      else
        var page := if slot.offset == 0 then Zeros(PAGE_SIZE) else pages[slot.index];
        v.(pages := pages[slot.index := Overwrite(page, slot.offset, Record(d))], pos := d.off, held := v.held + 1,
           size := slot.index * PAGE_SIZE + slot.offset + Len(d))
  }

  lemma SlotFreeOf(ls: seq<Dirent>, slot: Slot, at: nat, d: Dirent)
    requires Listing(ls) && SlotOk(ls, slot, at, d)
    ensures SlotFree(slot, d)
  {
    var j :| 0 <= j < |ls| && ls[j] == d && Cookie(ls, j) == at && slot.size == End(ls, j) &&
      slot.index == Start(ls, j) / PAGE_SIZE && slot.offset == Start(ls, j) % PAGE_SIZE;
    Lengths(d);
    PlaceFits(End(ls, j), Len(d));
  }

  lemma AddedOk(ls: seq<Dirent>, k: nat, v: Rdc)
    requires Listing(ls) && k < |ls| && PagesOk(ls, k + 1, v.pages)
    requires v.size == End(ls, k + 1) && v.pos == ls[k].off && v.held == k + 1 && !v.cached
    ensures RdcOk(ls, v)
  {
  }

  // A prepared addition that finds everything as it was adds its record, which is the next one ...
  lemma CommitAdds(ls: seq<Dirent>, v: Rdc, d: Dirent, at: nat, slot: Slot, memory: bool, junk: seq<byte>)
    requires RdcOk(ls, v) && SlotOk(ls, slot, at, d) && SlotFree(slot, d) && |junk| == PAGE_SIZE
    requires Gets(slot, v.pages, memory) && Fits(slot, v.version, v.size)
    ensures RdcOk(ls, CommitOf(v, d, slot, memory, junk)) && v.held < |ls| && ls[v.held] == d && v.pos == at
      && !v.cached
  {
    var page := if slot.offset == 0 then Zeros(PAGE_SIZE) else v.pages[slot.index];
    SlotFits(ls, v.held, v.pages, slot, at, d, page);
    var v' := CommitOf(v, d, slot, memory, junk);
    assert v'.pages == v.pages[slot.index := Overwrite(page, slot.offset, Record(d))];
    AddedOk(ls, v.held, v');
  }

  // ... and any other leaves the cache right exactly if it leaves no stray page, or a stray page that is right by
  // chance.
  lemma CommitRaces(ls: seq<Dirent>, v: Rdc, d: Dirent, slot: Slot, memory: bool, junk: seq<byte>)
    requires RdcOk(ls, v) && SlotFree(slot, d) && |junk| == PAGE_SIZE
    requires !(Gets(slot, v.pages, memory) && Fits(slot, v.version, v.size))
    ensures RdcOk(ls, CommitOf(v, d, slot, memory, junk)) <==>
            Strays(slot, v.version, v.size, v.pages, memory) ==> junk == Page(ls, v.held, slot.index)
  {
    if slot.index !in v.pages {
      CreatedKeeps(ls, v.held, v.pages, slot.index, junk);
    }
  }

  class DirCache {
    var cached: bool
    var size: nat
    var pos: nat
    var version: nat
    var pages: map<nat, seq<byte>>
    ghost var held: nat

    ghost function Now(): Rdc
      reads this
    {
      Rdc(cached, size, pos, version, pages, held)
    }

    ghost predicate Valid(ls: seq<Dirent>)
      reads this
    {
      RdcOk(ls, Now())
    }

    constructor (ghost ls: seq<Dirent>)
      requires Listing(ls)
      ensures Valid(ls) && !cached && size == 0 && version == 0
    {
      cached, size, pos, version, pages, held := false, 0, 0, 0, map[], 0;
    }

    // fuse_add_dirent_to_cache, 44-62
    method PrepareAdd(ghost ls: seq<Dirent>, d: Dirent, at: nat, ghost i: nat) returns (go: bool, slot: Slot)
      requires Valid(ls) && i < |ls| && ls[i] == d && at == Cookie(ls, i)
      ensures go <==> !cached && held == i
      ensures go ==> SlotOk(ls, slot, at, d) && SlotFree(slot, d) && slot.version == version && slot.size == size
    {
      go := !(cached || at != pos);
      if at == pos {
        CookieInjective(ls, i, held);
      }
      var offset, index := size % PAGE_SIZE, size / PAGE_SIZE;
      if offset + RecLen(|d.name|) > PAGE_SIZE {
        index := index + 1;
        offset := 0;
      }
      slot := Slot(version, size, index, offset);
      if go {
        SlotPlace(size, RecLen(|d.name|));
        SlotFreeOf(ls, slot, at, d);
      }
    }

    // ... 64-89.  The prepared addition is made exactly if the page is there and nothing has changed; otherwise the
    // cache stays right unless it gets a stray page.
    method CommitAdd(ghost ls: seq<Dirent>, d: Dirent, ghost at: nat, slot: Slot, memory: bool, junk: seq<byte>)
      requires Valid(ls) && SlotOk(ls, slot, at, d) && SlotFree(slot, d) && |junk| == PAGE_SIZE
      modifies this`size, this`pos, this`pages, this`held
      ensures Now() == CommitOf(old(Now()), d, slot, memory, junk)
      ensures Gets(slot, old(pages), memory) && Fits(slot, version, old(size)) ==>
                && Valid(ls) && old(held) < |ls| && ls[old(held)] == d && !cached
                && held == old(held) + 1 && pages.Keys == old(pages).Keys + {slot.index}
      ensures !(Gets(slot, old(pages), memory) && Fits(slot, version, old(size))) ==>
                && held == old(held)
                && (Valid(ls)
                    <==> Strays(slot, version, size, old(pages), memory) ==> junk == Page(ls, held, slot.index))
    {
      if Gets(slot, pages, memory) && Fits(slot, version, size) {
        CommitAdds(ls, Now(), d, at, slot, memory, junk);
      } else {
        CommitRaces(ls, Now(), d, slot, memory, junk);
      }
      if !Gets(slot, pages, memory) {
        return;
      }
      if slot.index !in pages {
        pages := pages[slot.index := junk];
      }
      if version != slot.version || size != slot.size {
        return;
      }
      var page := if slot.offset == 0 then Zeros(PAGE_SIZE) else pages[slot.index];
      pages := pages[slot.index := Overwrite(page, slot.offset, Record(d))];
      size := slot.index * PAGE_SIZE + slot.offset + RecLen(|d.name|);
      pos := d.off;
      held := held + 1;
    }

    // fuse_readdir_cache_end; the server has no record after position at.
    method CacheEnd(ghost ls: seq<Dirent>, at: nat) returns (end: nat)
      requires Valid(ls) && at == Cookie(ls, |ls|)
      modifies this`cached
      ensures Valid(ls) && cached == (old(cached) || held == |ls|)
    {
      end := 0;
      if pos == at {
        CookieInjective(ls, held, |ls|);
        cached := true;
        end := (size + PAGE_SIZE - 1) / PAGE_SIZE * PAGE_SIZE;
      } else {
        assert held != |ls|;
      }
    }

    // truncate_inode_pages and memory reclaim
    method DropPages(ghost ls: seq<Dirent>, gone: set<nat>)
      requires Valid(ls)
      modifies this`pages
      ensures Valid(ls) && pages == old(pages) - gone
    {
      pages := pages - gone;
    }

    // fuse_rdc_reset
    method Reset(ghost ls: seq<Dirent>)
      requires Valid(ls)
      modifies this
      ensures Valid(ls) && !cached && held == 0 && version == old(version) + 1 && pages == old(pages)
    {
      cached, version, size, pos, held := false, version + 1, 0, 0, 0;
    }
  }

  // A record that goes to the middle of a page goes to a page in use.
  lemma OffsetInUse(ls: seq<Dirent>, k: nat)
    requires Listing(ls) && k < |ls| && Start(ls, k) % PAGE_SIZE != 0
    ensures Start(ls, k) / PAGE_SIZE * PAGE_SIZE < End(ls, k)
  {
    Lengths(ls[k]);
    PlaceFits(End(ls, k), Len(ls[k]));
  }

  // ------------------------------------------------ other threads

  // What another thread may do to the cache between two sections of this one
  datatype Op =
    | Commit(d: Dirent, at: nat, slot: Slot, memory: bool, junk: seq<byte>)
    | MarkEnd(at: nat) | Drop(gone: set<nat>) | DoReset

  ghost predicate OpOk(ls: seq<Dirent>, op: Op)
    requires Listing(ls)
  {
    match op
    case Commit(d, at, slot, _, junk) => SlotOk(ls, slot, at, d) && SlotFree(slot, d) && |junk| == PAGE_SIZE
    case MarkEnd(at) => at == Cookie(ls, |ls|)
    case _ => true
  }

  // It takes nothing away.
  predicate Harmless(op: Op) { op.Commit? || op.MarkEnd? }

  // Only an addition that would leave a stray page is not made.
  method Other(cache: DirCache, op: Op, ghost ls: seq<Dirent>)
    requires cache.Valid(ls) && OpOk(ls, op)
    modifies cache
    ensures cache.Valid(ls) && cache.version >= old(cache.version)
    ensures cache.version == old(cache.version) && old(cache.cached) ==> cache.cached
    ensures Harmless(op) ==> cache.version == old(cache.version) && old(cache.pages).Keys <= cache.pages.Keys
  {
    match op
    case Commit(d, at, slot, memory, junk) =>
      if !Strays(slot, cache.version, cache.size, cache.pages, memory) {
        cache.CommitAdd(ls, d, at, slot, memory, junk);
      }
    case MarkEnd(at) =>
      var end := cache.CacheEnd(ls, at);
    case Drop(gone) => cache.DropPages(ls, gone);
    case DoReset => cache.Reset(ls);
  }

  method Others(cache: DirCache, ops: seq<Op>, ghost ls: seq<Dirent>)
    requires cache.Valid(ls) && forall op | op in ops :: OpOk(ls, op)
    modifies cache
    ensures cache.Valid(ls) && cache.version >= old(cache.version)
    ensures cache.version == old(cache.version) && old(cache.cached) ==> cache.cached
    ensures (forall op | op in ops :: Harmless(op)) ==>
              cache.version == old(cache.version) && old(cache.pages).Keys <= cache.pages.Keys
    ensures ops == [] ==> cache.Now() == old(cache.Now())
  {
    var i := 0;
    while i < |ops|
      invariant 0 <= i <= |ops| && cache.Valid(ls) && cache.version >= old(cache.version)
      invariant cache.version == old(cache.version) && old(cache.cached) ==> cache.cached
      invariant (forall op | op in ops :: Harmless(op)) ==>
                  cache.version == old(cache.version) && old(cache.pages).Keys <= cache.pages.Keys
      invariant i == 0 ==> cache.Now() == old(cache.Now())
    {
      Other(cache, ops[i], ls);
      i := i + 1;
    }
  }

  // A thread prepares to add the only record of a directory; another adds it and completes the cache; the page is
  // reclaimed; then the first one creates the page anew, finds that the cache has changed, and leaves the page as it
  // got it.  The complete cache now has a page with whatever that holds, and fuse_parse_cache takes it for a record.
  method StrayPage(d: Dirent, d2: Dirent, junk: seq<byte>) returns (cache: DirCache)
    requires Listing([d]) && Valid(d2) && |d2.name| == |d.name| && d2.name != d.name
    requires |junk| == PAGE_SIZE && HoldsRecord(junk, 0, d2)
    ensures cache.cached && cache.size == Len(d) && 0 in cache.pages && cache.pages[0] == junk && !cache.Valid([d])
  {
    var ls := [d];
    cache := new DirCache(ls);
    OneRecord(d);
    var go1, slot1 := cache.PrepareAdd(ls, d, 0, 0);
    var go2, slot2 := cache.PrepareAdd(ls, d, 0, 0);
    cache.CommitAdd(ls, d, 0, slot2, true, junk);
    var end := cache.CacheEnd(ls, d.off);
    cache.DropPages(ls, {0});
    cache.CommitAdd(ls, d, 0, slot1, true, junk);
    ReadBack(junk, 0, d2);
    PageOne(d, junk, d2);
  }

  lemma OneRecord(d: Dirent)
    requires Listing([d])
    ensures Cookie([d], 0) == 0 && Cookie([d], 1) == d.off && End([d], 0) == 0 == Start([d], 0) && End([d], 1) == Len(d)
    ensures 32 <= Len(d) <= PAGE_SIZE
  {
    assert [d][0] == d;
    Lengths(d);
  }

  lemma PageOne(d: Dirent, junk: seq<byte>, d2: Dirent)
    requires Listing([d]) && HoldsRecord(junk, 0, d2) && d2.name != d.name
    ensures junk != Page([d], 1, 0)
  {
    OneRecord(d);
    if junk == Page([d], 1, 0) {
      var page := Page([d], 1, 0);
      RecordAt([d], 1, 0);
      StillHeld(Content([d], 1, 0), 0, d,
                Zeros(if |Content([d], 1, 0)| <= PAGE_SIZE then PAGE_SIZE - |Content([d], 1, 0)| else 0));
      ReadBack(page, 0, d);
      ReadBack(page, 0, d2);
      assert false;
    }
  }
}
