// Where the records of a directory listing lie in the readdir cache: one after the other, except that a record that
// does not fit the rest of a page begins the next page.
module ReaddirLayout {
  import opened Basics
  import opened DirentFormat

  // A listing in the server's order: valid records with distinct non-zero cookies
  ghost predicate Listing(ls: seq<Dirent>) {
    && (forall j | 0 <= j < |ls| :: Valid(ls[j]) && ls[j].off != 0)
    && (forall i, j | 0 <= i < j < |ls| :: ls[i].off != ls[j].off)
  }

  // The directory position after the first j records
  function Cookie(ls: seq<Dirent>, j: nat): nat
    requires j <= |ls|
  {
    if j == 0 then 0 else ls[j - 1].off
  }

  lemma CookieInjective(ls: seq<Dirent>, i: nat, j: nat)
    requires Listing(ls) && i <= |ls| && j <= |ls| && Cookie(ls, i) == Cookie(ls, j)
    ensures i == j
  {
  }

  function Len(d: Dirent): nat { RecLen(|d.name|) }

  // Where a record goes when the cache has size bytes, page by page ...
  function Place(size: nat, reclen: nat): nat {
    if size >= PAGE_SIZE then PAGE_SIZE + Place(size - PAGE_SIZE, reclen)
    else if size + reclen > PAGE_SIZE then PAGE_SIZE
    else size
  }

  // ... and as fuse_add_dirent_to_cache computes it, 55-61
  lemma {:induction false} PlaceIs(size: nat, reclen: nat)
    ensures Place(size, reclen) ==
            if size % PAGE_SIZE + reclen > PAGE_SIZE then (size / PAGE_SIZE + 1) * PAGE_SIZE else size
  {
    if size >= PAGE_SIZE {
      PlaceIs(size - PAGE_SIZE, reclen);
      assert size / PAGE_SIZE == (size - PAGE_SIZE) / PAGE_SIZE + 1
        && size % PAGE_SIZE == (size - PAGE_SIZE) % PAGE_SIZE;
    }
  }

  function End(ls: seq<Dirent>, k: nat): nat
    requires k <= |ls|
  {
    if k == 0 then 0 else Place(End(ls, k - 1), Len(ls[k - 1])) + Len(ls[k - 1])
  }

  function Start(ls: seq<Dirent>, k: nat): nat
    requires k < |ls|
  {
    Place(End(ls, k), Len(ls[k]))
  }

  // The bytes that the first k records put on page p
  function Content(ls: seq<Dirent>, k: nat, p: nat): seq<byte>
    requires k <= |ls| && forall j | 0 <= j < |ls| :: Valid(ls[j])
  {
    if k == 0 then []
    else if Start(ls, k - 1) / PAGE_SIZE == p then Content(ls, k - 1, p) + Record(ls[k - 1])
    else Content(ls, k - 1, p)
  }

  // The whole page: the rest is zero.
  function Page(ls: seq<Dirent>, k: nat, p: nat): seq<byte>
    requires k <= |ls| && forall j | 0 <= j < |ls| :: Valid(ls[j])
  {
    var c := Content(ls, k, p);
    c + Zeros(if |c| <= PAGE_SIZE then PAGE_SIZE - |c| else 0)
  }

  lemma Lengths(d: Dirent)
    requires Valid(d)
    ensures 32 <= Len(d) <= PAGE_SIZE
  {
  }

  lemma PlaceFits(size: nat, reclen: nat)
    requires 0 < reclen <= PAGE_SIZE
    ensures var s := Place(size, reclen);
            && size <= s && s % PAGE_SIZE + reclen <= PAGE_SIZE
            && (s == size || (size % PAGE_SIZE != 0 && s % PAGE_SIZE == 0 && s / PAGE_SIZE == size / PAGE_SIZE + 1))
  {
    PlaceIs(size, reclen);
  }

  lemma EndGrows(ls: seq<Dirent>, k: nat)
    requires Listing(ls) && k < |ls|
    ensures End(ls, k) <= Start(ls, k) < Start(ls, k) + Len(ls[k]) == End(ls, k + 1)
  {
    Lengths(ls[k]);
    PlaceFits(End(ls, k), Len(ls[k]));
  }

  lemma {:induction false} EndIncreases(ls: seq<Dirent>, j: nat, k: nat)
    requires Listing(ls) && j < k <= |ls|
    ensures End(ls, j) < End(ls, k) && Start(ls, j) < End(ls, k)
  {
    EndGrows(ls, k - 1);
    if j < k - 1 {
      EndIncreases(ls, j, k - 1);
    }
  }

  // Two positions with the same size are the same.
  lemma EndInjective(ls: seq<Dirent>, j: nat, k: nat)
    requires Listing(ls) && j <= |ls| && k <= |ls| && End(ls, j) == End(ls, k)
    ensures j == k
  {
    if j < k {
      EndIncreases(ls, j, k);
    } else if k < j {
      EndIncreases(ls, k, j);
    }
  }

  // The last page in use is filled up to the size of the cache; later pages are not in use.
  lemma {:induction false} ContentSize(ls: seq<Dirent>, k: nat, p: nat)
    requires Listing(ls) && k <= |ls|
    ensures |Content(ls, k, p)| <= PAGE_SIZE
    ensures p * PAGE_SIZE < End(ls, k) <= (p + 1) * PAGE_SIZE ==> |Content(ls, k, p)| == End(ls, k) - p * PAGE_SIZE
    ensures End(ls, k) <= p * PAGE_SIZE ==> Content(ls, k, p) == []
  {
    if k > 0 {
      ContentSize(ls, k - 1, p);
      Lengths(ls[k - 1]);
      PlaceFits(End(ls, k - 1), Len(ls[k - 1]));
    }
  }

  // A record found in a page is found there after more bytes are added.
  lemma StillHeld(c: seq<byte>, o: nat, d: Dirent, more: seq<byte>)
    requires HoldsRecord(c, o, d)
    ensures HoldsRecord(c + more, o, d)
  {
    assert (c + more)[o..o + Len(d)] == c[o..o + Len(d)];
  }

  lemma JustAdded(c: seq<byte>, d: Dirent)
    requires Valid(d)
    ensures HoldsRecord(c + Record(d), |c|, d)
  {
  }

  lemma StartSize(ls: seq<Dirent>, j: nat)
    requires Listing(ls) && j < |ls|
    ensures |Content(ls, j, Start(ls, j) / PAGE_SIZE)| == Start(ls, j) % PAGE_SIZE
  {
    ContentSize(ls, j, Start(ls, j) / PAGE_SIZE);
    Lengths(ls[j]);
    PlaceFits(End(ls, j), Len(ls[j]));
  }

  // Record j, once added, is found at its place.
  lemma {:induction false} RecordAt(ls: seq<Dirent>, k: nat, j: nat)
    requires Listing(ls) && j < k <= |ls|
    ensures HoldsRecord(Content(ls, k, Start(ls, j) / PAGE_SIZE), Start(ls, j) % PAGE_SIZE, ls[j])
  {
    var p, o := Start(ls, j) / PAGE_SIZE, Start(ls, j) % PAGE_SIZE;
    if j == k - 1 {
      StartSize(ls, j);
      JustAdded(Content(ls, j, p), ls[j]);
    } else {
      RecordAt(ls, k - 1, j);
      StillHeld(Content(ls, k - 1, p), o, ls[j], Record(ls[k - 1]));
    }
  }

  lemma {:induction false} StartsGrow(ls: seq<Dirent>, j: nat, k: nat)
    requires Listing(ls) && j <= k < |ls|
    ensures Start(ls, j) <= Start(ls, k)
  {
    EndGrows(ls, k);
    if j < k {
      EndIncreases(ls, j, k);
    }
  }

  lemma DivGrows(a: nat, b: nat)
    requires a <= b
    ensures a / PAGE_SIZE <= b / PAGE_SIZE
  {
  }

  // A page that record j no longer fits on ends where record j - 1 ends.
  lemma {:induction false} PageEnds(ls: seq<Dirent>, k: nat, j: nat, p: nat)
    requires Listing(ls) && j <= k <= |ls| && p * PAGE_SIZE < End(ls, j) <= (p + 1) * PAGE_SIZE
    requires j < |ls| ==> Start(ls, j) / PAGE_SIZE > p
    ensures |Content(ls, k, p)| == End(ls, j) - p * PAGE_SIZE
  {
    if k == j {
      ContentSize(ls, j, p);
    } else {
      PageEnds(ls, k - 1, j, p);
      StartsGrow(ls, j, k - 1);
      DivGrows(Start(ls, j), Start(ls, k - 1));
    }
  }
}
