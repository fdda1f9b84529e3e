// copy_out_args and fuse_copy_pages of dev.c: the payload of a reply, cut into the arguments and pages of its request,
// and the header and footer split.
module ReplyArgs {
  import opened Basics
  import opened CopyEngine

  datatype Desc = Desc(offset: nat, length: nat)

  predicate DescsOk(descs: seq<Desc>) { forall k | 0 <= k < |descs| :: descs[k].offset + descs[k].length <= PAGE_SIZE }

  predicate WholePages(pages: seq<seq<byte>>) { forall k | 0 <= k < |pages| :: |pages[k]| == PAGE_SIZE }

  // How many of n bytes are left when page i's turn comes
  function Rest(descs: seq<Desc>, n: nat, i: nat): (r: nat)
    requires i <= |descs|
    ensures r <= n
  {
    if i == 0 then n else Rest(descs, n, i - 1) - Min(Rest(descs, n, i - 1), descs[i - 1].length)
  }

  // How many of n bytes go to page i
  function Count(descs: seq<Desc>, n: nat, i: nat): (c: nat)
    requires i < |descs|
    ensures c <= Rest(descs, n, i) && c <= descs[i].length
  {
    Min(Rest(descs, n, i), descs[i].length)
  }

  // The part of the payload that goes to page i: pages take consecutive slices.
  function Slice(descs: seq<Desc>, data: seq<byte>, i: nat): (s: seq<byte>)
    requires i < |descs|
    ensures |s| == Count(descs, |data|, i)
  {
    var a := |data| - Rest(descs, |data|, i);
    data[a..a + Count(descs, |data|, i)]
  }

  // Once nothing is left, nothing goes to the later pages.
  lemma {:induction false} RestStaysZero(descs: seq<Desc>, n: nat, i: nat, k: nat)
    requires i <= k <= |descs| && Rest(descs, n, i) == 0
    ensures Rest(descs, n, k) == 0
  {
    if i < k {
      RestStaysZero(descs, n, i, k - 1);
    }
  }

  // Page k after receiving its part of the payload
  function PageAfter(descs: seq<Desc>, pages: seq<seq<byte>>, data: seq<byte>, zeroing: bool, k: nat): seq<byte>
    requires DescsOk(descs) && WholePages(pages) && |pages| == |descs| && k < |descs|
  {
    Received(pages[k], descs[k].offset, Slice(descs, data, k), zeroing)
  }

  // The first i pages have received theirs, the others are as they were.
  ghost predicate PagesReceived(descs: seq<Desc>, pages: seq<seq<byte>>, pages': seq<seq<byte>>, data: seq<byte>,
                                zeroing: bool, i: nat)
    requires DescsOk(descs) && WholePages(pages) && |pages| == |descs|
  {
    && |pages'| == |pages|
    && (forall k | 0 <= k < i && k < |descs| :: pages'[k] == PageAfter(descs, pages, data, zeroing, k))
    && (forall k | i <= k < |descs| :: pages'[k] == pages[k])
  }

  lemma NothingReceived(descs: seq<Desc>, pages: seq<seq<byte>>, data: seq<byte>, k: nat)
    requires DescsOk(descs) && WholePages(pages) && |pages| == |descs| && k < |descs| && Count(descs, |data|, k) == 0
    ensures PageAfter(descs, pages, data, false, k) == pages[k]
  {
    assert Slice(descs, data, k) == [];
  }

  lemma EarlyStop(descs: seq<Desc>, pages: seq<seq<byte>>, pages': seq<seq<byte>>, data: seq<byte>, i: nat)
    requires DescsOk(descs) && WholePages(pages) && |pages| == |descs| && i <= |descs|
    requires PagesReceived(descs, pages, pages', data, false, i) && Rest(descs, |data|, i) == 0
    ensures PagesReceived(descs, pages, pages', data, false, |descs|)
    ensures Rest(descs, |data|, |descs|) == 0 && (i < |descs| ==> Rest(descs, |data|, |descs| - 1) == 0)
  {
    RestStaysZero(descs, |data|, i, |descs|);
    if i < |descs| {
      RestStaysZero(descs, |data|, i, |descs| - 1);
    }
    forall k | i <= k < |descs| ensures pages'[k] == PageAfter(descs, pages, data, false, k) {
      RestStaysZero(descs, |data|, i, k);
      NothingReceived(descs, pages, data, k);
    }
  }

  lemma CutSlice(left: seq<byte>, n: nat, a: nat, count: nat)
    requires a + count <= n <= |left|
    ensures left[a..][..count] == left[..n][a..a + count] && left[a..][count..] == left[a + count..]
  {
  }

  // The reply, of which n bytes are for the pages, has been copied to the pages below i.
  ghost predicate CopiedTo(cs: CopyState, left: seq<byte>, descs: seq<Desc>, pages: seq<seq<byte>>,
                           pages': seq<seq<byte>>,
                           n: nat, zeroing: bool, i: nat)
    reads cs
    requires DescsOk(descs) && WholePages(pages) && |pages| == |descs| && n <= |left| && i <= |descs|
  {
    && cs.Valid() && cs.Left() == left[n - Rest(descs, n, i)..]
    && PagesReceived(descs, pages, pages', left[..n], zeroing, i)
  }

  method CopyNextPage(cs: CopyState, descs: seq<Desc>, pages0: seq<seq<byte>>, rest: nat, i: nat, zeroing: bool,
                      ghost left: seq<byte>, ghost pages: seq<seq<byte>>, ghost n: nat)
    returns (ok: bool, pages': seq<seq<byte>>)
    requires DescsOk(descs) && WholePages(pages) && |pages| == |descs| && n <= |left| && i < |descs|
    requires CopiedTo(cs, left, descs, pages, pages0, n, zeroing, i) && rest == Rest(descs, n, i)
    modifies cs`next, cs`nrSegs, cs`pg, cs`offset, cs`len, cs`faults
    ensures cs.Valid() && |pages'| == |pages|
    ensures ok ==> CopiedTo(cs, left, descs, pages, pages', n, zeroing, i + 1)
  {
    pages' := pages0;
    var count := Min(rest, descs[i].length);
    var page;
    ok, page := cs.CopyPage(pages'[i], descs[i].offset, count, zeroing);
    if ok {
      CutSlice(left, n, n - rest, count);
      pages' := pages'[i := page];
      assert pages'[i] == PageAfter(descs, pages, left[..n], zeroing, i);
    }
  }

  // fuse_copy_pages up to the split: n bytes of the reply go to the pages.
  method CopyPages(cs: CopyState, descs: seq<Desc>, pages: seq<seq<byte>>, n: nat, zeroing: bool)
    returns (ok: bool, pages': seq<seq<byte>>, lastBytes: nat)
    requires cs.Valid() && n <= |cs.Left()| && DescsOk(descs) && WholePages(pages) && |pages| == |descs|
    modifies cs`next, cs`nrSegs, cs`pg, cs`offset, cs`len, cs`faults
    ensures cs.Valid()
    ensures ok ==> CopiedTo(cs, old(cs.Left()), descs, pages, pages', n, zeroing, |descs|)
    ensures ok ==> lastBytes == LastBytes(descs, n)
  {
    ghost var left := cs.Left();
    pages', lastBytes := pages, 0;
    var rest: nat, i: nat := n, 0;
    while i < |descs| && (rest > 0 || zeroing)
      invariant i <= |descs| && rest == Rest(descs, n, i) && CopiedTo(cs, left, descs, pages, pages', n, zeroing, i)
      invariant lastBytes == if i == |descs| > 0 then Rest(descs, n, i - 1) else 0
      decreases |descs| - i
    {
      ok, pages' := CopyNextPage(cs, descs, pages', rest, i, zeroing, left, pages, n);
      if !ok {
        return;
      }
      lastBytes := if i != |descs| - 1 then lastBytes else rest;
      rest, i := rest - Min(rest, descs[i].length), i + 1;
    }
    ok := true;
    if i < |descs| {
      CopiedEarly(cs, left, descs, pages, pages', n, i);
    }
  }

  lemma CopiedEarly(cs: CopyState, left: seq<byte>, descs: seq<Desc>, pages: seq<seq<byte>>, pages': seq<seq<byte>>,
                    n: nat, i: nat)
    requires DescsOk(descs) && WholePages(pages) && |pages| == |descs| && n <= |left| && i < |descs|
    requires CopiedTo(cs, left, descs, pages, pages', n, false, i) && Rest(descs, n, i) == 0
    ensures CopiedTo(cs, left, descs, pages, pages', n, false, |descs|) && Rest(descs, n, |descs| - 1) == 0
  {
    EarlyStop(descs, pages, pages', left[..n], i);
  }

  // ------------------------------------------------ the split

  // What fuse_split_payload leaves for the user: nothing to split, a buffer, an access outside of a page, of the buffer
  // or of the descriptors, or no buffer at all.  Header and footer are the daemon's, unchecked.
  datatype Split = NoSplit | Buf(bytes: seq<byte>) | OutOfRange | NoBuffer

  // The footer bytes of a page that end at its byte end
  function Tail(page: seq<byte>, end: nat, footer: nat): seq<byte>
    requires footer == 0 || footer <= end <= |page|
  {
    if footer == 0 then [] else page[end - footer..end]
  }

  predicate HeadFits(descs: seq<Desc>, header: u32)
    requires descs != []
  {
    descs[0].offset + header <= PAGE_SIZE
  }

  function Head(descs: seq<Desc>, pages: seq<seq<byte>>, header: u32): seq<byte>
    requires WholePages(pages) && |pages| == |descs| && descs != [] && HeadFits(descs, header)
  {
    pages[0][descs[0].offset..descs[0].offset + header]
  }

  // Where the footer ends on the last page
  function TailEnd(descs: seq<Desc>, lastBytes: nat): nat
    requires descs != []
  {
    descs[|descs| - 1].offset + lastBytes
  }

  predicate TailFits(descs: seq<Desc>, footer: u32, lastBytes: nat)
    requires descs != []
  {
    footer == 0 || footer <= TailEnd(descs, lastBytes) <= PAGE_SIZE
  }

  // The header bytes of the first page and the footer bytes that end at lastBytes of the last page.  On one page the
  // buffer stays zero; without any, num_pages - 1 wraps around and the loop reads descriptors that are not there.
  function SplitOf(descs: seq<Desc>, pages: seq<seq<byte>>, header: u32, footer: u32, lastBytes: nat): Split
    requires DescsOk(descs) && WholePages(pages) && |pages| == |descs|
  {
    if header == 0 && footer == 0 then NoSplit
    else if descs == [] then OutOfRange
    else if |descs| == 1 then Buf(Zeros((header + footer) % TWO32))
    else if !HeadFits(descs, header) || !TailFits(descs, footer, lastBytes) then OutOfRange
    else Buf(Head(descs, pages, header) + Tail(pages[|descs| - 1], TailEnd(descs, lastBytes), footer))
  }

  // memcpy(kernel_buf, page1, header)
  method CopyHead(page: seq<byte>, o: nat, header: nat, kernelBuf: seq<byte>) returns (ok: bool, buf: seq<byte>)
    requires |page| == PAGE_SIZE
    ensures ok <==> o + header <= PAGE_SIZE && header <= |kernelBuf|
    ensures ok ==> |buf| == |kernelBuf| && buf[..header] == page[o..o + header]
  {
    ok, buf := o + header <= PAGE_SIZE && header <= |kernelBuf|, kernelBuf;
    if ok {
      buf := page[o..o + header] + kernelBuf[header..];
    }
  }

  // memcpy(kernel_buf + header, page2 + nbytes - footer, footer)
  method CopyTail(page: seq<byte>, end: nat, header: nat, footer: nat, kernelBuf: seq<byte>)
    returns (ok: bool, buf: seq<byte>)
    requires |page| == PAGE_SIZE && header <= |kernelBuf|
    ensures ok <==> footer == 0 || (footer <= end <= PAGE_SIZE && header + footer <= |kernelBuf|)
    ensures ok ==>
              |buf| == |kernelBuf| && buf[..header] == kernelBuf[..header]
              && buf[header..header + footer] == Tail(page, end, footer)
  {
    ok, buf := footer == 0 || (footer <= end <= PAGE_SIZE && header + footer <= |kernelBuf|), kernelBuf;
    if ok && footer > 0 {
      buf := kernelBuf[..header] + page[end - footer..end] + kernelBuf[header + footer..];
    }
  }

  // What is split off when there is memory for it or not: the allocation is not checked, and the code goes on without a
  // buffer.
  function Given(memory: bool, header: nat, footer: nat, split: Split): Split {
    if memory || header + footer == 0 then split else NoBuffer
  }

  // fuse_split_payload.  memory: whether kzalloc returns a buffer.
  method SplitPayload(descs: seq<Desc>, pages: seq<seq<byte>>, header: u32, footer: u32, lastBytes: nat, memory: bool)
    returns (split: Split)
    requires DescsOk(descs) && WholePages(pages) && |pages| == |descs|
    ensures split == Given(memory, header, footer, SplitOf(descs, pages, header, footer, lastBytes))
  {
    if header == 0 && footer == 0 {
      return NoSplit;
    }
    if !memory {
      return NoBuffer;
    }
    var kernelBuf := Zeros((header + footer) % TWO32);
    if descs == [] {
      return OutOfRange;
    }
    var i := 0;
    while i < |descs| - 1
      invariant 0 <= i <= |descs| - 1 && |kernelBuf| == (header + footer) % TWO32
      invariant i == 0 ==> kernelBuf == Zeros((header + footer) % TWO32)
      invariant i > 0 ==>
                  header <= |kernelBuf| && HeadFits(descs, header) && kernelBuf[..header] == Head(descs, pages, header)
      invariant i == |descs| - 1 > 0 ==>
                  TailFits(descs, footer, lastBytes) && header + footer == |kernelBuf| &&
                  kernelBuf[header..header + footer] == Tail(pages[i], TailEnd(descs, lastBytes), footer)
    {
      var ok;
      if i == 0 {
        ok, kernelBuf := CopyHead(pages[i], descs[i].offset, header, kernelBuf);
        if !ok {
          return OutOfRange;
        }
      }
      if i == |descs| - 2 {
        ok, kernelBuf := CopyTail(pages[i + 1], TailEnd(descs, lastBytes), header, footer, kernelBuf);
        if !ok {
          return OutOfRange;
        }
      }
      i := i + 1;
    }
    if |descs| > 1 {
      assert kernelBuf == kernelBuf[..header] + kernelBuf[header..header + footer];
    }
    return Buf(kernelBuf);
  }

  // ------------------------------------------------ the split buffer and the payload

  lemma ReceivedSlice(page: seq<byte>, o: nat, s: seq<byte>, zeroing: bool, a: nat, b: nat)
    requires |page| == PAGE_SIZE && o + |s| <= PAGE_SIZE && a <= b <= |s|
    ensures Received(page, o, s, zeroing)[o + a..o + b] == s[a..b]
  {
  }

  // The bytes of a slice of the payload on the page that received it
  lemma OnPage(page: seq<byte>, o: nat, data: seq<byte>, taken: nat, c: nat, zeroing: bool, a: nat, b: nat)
    requires |page| == PAGE_SIZE && o + c <= PAGE_SIZE && taken + c <= |data| && a <= b <= c
    ensures Received(page, o, data[taken..taken + c], zeroing)[o + a..o + b] == data[taken + a..taken + b]
  {
    ReceivedSlice(page, o, data[taken..taken + c], zeroing, a, b);
    SubSlice(data, taken, c, a, b);
  }

  lemma HeaderOnPage(descs: seq<Desc>, pages: seq<seq<byte>>, data: seq<byte>, zeroing: bool, header: nat)
    requires DescsOk(descs) && WholePages(pages) && |pages| == |descs| >= 1 && header <= Count(descs, |data|, 0)
    ensures PageAfter(descs, pages, data, zeroing, 0)[descs[0].offset..descs[0].offset + header] == data[..header]
  {
    OnPage(pages[0], descs[0].offset, data, 0, Count(descs, |data|, 0), zeroing, 0, header);
  }

  lemma FooterOnPage(descs: seq<Desc>, pages: seq<seq<byte>>, data: seq<byte>, zeroing: bool, footer: nat, last: nat,
                     taken: nat, lastBytes: nat)
    requires DescsOk(descs) && WholePages(pages) && |pages| == |descs| && last < |descs|
    requires footer <= lastBytes == Rest(descs, |data|, last) == Count(descs, |data|, last)
      && taken + lastBytes == |data|
    ensures var end := descs[last].offset + lastBytes;
            PageAfter(descs, pages, data, zeroing, last)[end - footer..end] ==
            data[|data| - footer..|data|]
  {
    assert Slice(descs, data, last) == data[taken..taken + lastBytes];
    OnPage(pages[last], descs[last].offset, data, taken, lastBytes, zeroing, lastBytes - footer, lastBytes);
  }

  // All pages after the payload was received
  function PagesAfter(descs: seq<Desc>, pages: seq<seq<byte>>, data: seq<byte>, zeroing: bool): (ps: seq<seq<byte>>)
    requires DescsOk(descs) && WholePages(pages) && |pages| == |descs|
    ensures |ps| == |pages| && WholePages(ps)
  {
    seq(|descs|, k requires 0 <= k < |descs| => PageAfter(descs, pages, data, zeroing, k))
  }

  // last_bytes of fuse_copy_pages
  function LastBytes(descs: seq<Desc>, n: nat): nat { if descs == [] then 0 else Rest(descs, n, |descs| - 1) }

  // What the split of a payload comes to
  function SplitFor(descs: seq<Desc>, pages: seq<seq<byte>>, data: seq<byte>, zeroing: bool, header: u32,
                    footer: u32): Split
    requires DescsOk(descs) && WholePages(pages) && |pages| == |descs|
  {
    SplitOf(descs, PagesAfter(descs, pages, data, zeroing), header, footer, LastBytes(descs, |data|))
  }

  // What it is for: the first header bytes of the payload and its last footer bytes
  predicate IsEnds(split: Split, data: seq<byte>, header: nat, footer: nat) {
    match split
    case NoSplit => header + footer == 0
    case Buf(bytes) => header <= |data| && footer <= |data| && bytes == data[..header] + data[|data| - footer..]
    case OutOfRange => false
    case NoBuffer => false
  }

  ghost predicate SplitsRight(descs: seq<Desc>, pages: seq<seq<byte>>, data: seq<byte>, zeroing: bool, header: u32,
                              footer: u32)
    requires DescsOk(descs) && WholePages(pages) && |pages| == |descs|
  {
    IsEnds(SplitFor(descs, pages, data, zeroing, header, footer), data, header, footer)
  }

  // n bytes on at least two pages, the header within what goes to the first, the footer within what goes to the last,
  // and, with a footer, no more bytes than the pages take
  predicate CanSplit(descs: seq<Desc>, n: nat, header: nat, footer: nat) {
    || header + footer == 0
    || (|descs| >= 2 && header <= Count(descs, n, 0) && footer <= Count(descs, n, |descs| - 1) &&
        (footer > 0 ==> Rest(descs, n, |descs|) == 0))
  }

  lemma HeadIs(descs: seq<Desc>, pages: seq<seq<byte>>, data: seq<byte>, zeroing: bool, header: u32)
    requires DescsOk(descs) && WholePages(pages) && |pages| == |descs| && descs != []
      && header <= Count(descs, |data|, 0)
    ensures HeadFits(descs, header) && Head(descs, PagesAfter(descs, pages, data, zeroing), header) == data[..header]
  {
    HeaderOnPage(descs, pages, data, zeroing, header);
  }

  lemma TailIs(descs: seq<Desc>, pages: seq<seq<byte>>, data: seq<byte>, zeroing: bool, footer: u32, last: nat,
               lastBytes: nat)
    requires DescsOk(descs) && WholePages(pages) && |pages| == |descs| && last == |descs| - 1
      && lastBytes == Rest(descs, |data|, last)
    requires footer <= Count(descs, |data|, last) && (footer > 0 ==> Rest(descs, |data|, |descs|) == 0)
    ensures TailFits(descs, footer, lastBytes) && footer <= |data|
    ensures Tail(PagesAfter(descs, pages, data, zeroing)[last], TailEnd(descs, lastBytes), footer) ==
      data[|data| - footer..]
  {
    if footer > 0 {
      FooterOnPage(descs, pages, data, zeroing, footer, last, |data| - lastBytes, lastBytes);
      assert data[|data| - footer..] == data[|data| - footer..|data|];
    }
  }

  lemma SplitIsEnds(descs: seq<Desc>, pages: seq<seq<byte>>, data: seq<byte>, zeroing: bool, header: u32, footer: u32)
    requires DescsOk(descs) && WholePages(pages) && |pages| == |descs| && CanSplit(descs, |data|, header, footer)
    ensures SplitsRight(descs, pages, data, zeroing, header, footer)
  {
    if header + footer > 0 {
      HeadIs(descs, pages, data, zeroing, header);
      TailIs(descs, pages, data, zeroing, footer, |descs| - 1, LastBytes(descs, |data|));
    }
  }

  function Ones(n: nat): (s: seq<byte>)
    ensures |s| == n
  {
    seq(n, _ => 1)
  }

  function ZeroPages(n: nat): (ps: seq<seq<byte>>)
    ensures |ps| == n && WholePages(ps)
  {
    seq(n, _ => Zeros(PAGE_SIZE))
  }

  // On a page of zeros, whatever is not received is zero.
  lemma OutsideIsZero(descs: seq<Desc>, n: nat, zeroing: bool, k: nat, j: nat)
    requires DescsOk(descs) && k < |descs| && j < PAGE_SIZE
    requires !(descs[k].offset <= j < descs[k].offset + Count(descs, n, k))
    ensures PageAfter(descs, ZeroPages(|descs|), Ones(n), zeroing, k)[j] == 0
  {
    ReceivedBytes(ZeroPages(|descs|)[k], descs[k].offset, Slice(descs, Ones(n), k), zeroing, j);
  }

  lemma WrongHead(descs: seq<Desc>, n: nat, zeroing: bool, header: u32)
    requires DescsOk(descs) && descs != [] && header > Count(descs, n, 0) && HeadFits(descs, header)
    ensures Head(descs, PagesAfter(descs, ZeroPages(|descs|), Ones(n), zeroing), header)[Count(descs, n, 0)] == 0
  {
    OutsideIsZero(descs, n, zeroing, 0, descs[0].offset + Count(descs, n, 0));
  }

  // Which byte of the footer was not received
  function WrongAt(descs: seq<Desc>, n: nat, footer: u32, last: nat): int
    requires last < |descs|
  {
    if Rest(descs, n, last) > descs[last].length then footer - 1 else 0
  }

  lemma WrongTail(descs: seq<Desc>, n: nat, zeroing: bool, footer: u32, last: nat, lastBytes: nat)
    requires DescsOk(descs) && last == |descs| - 1 && lastBytes == Rest(descs, n, last)
    requires footer > 0 && (footer > Count(descs, n, last) || Rest(descs, n, |descs|) > 0)
      && TailFits(descs, footer, lastBytes)
    ensures Tail(PagesAfter(descs, ZeroPages(|descs|), Ones(n), zeroing)[last], TailEnd(descs, lastBytes), footer)
              [WrongAt(descs, n, footer, last)] == 0
  {
    var end := TailEnd(descs, lastBytes);
    if lastBytes > descs[last].length {
      OutsideIsZero(descs, n, zeroing, last, end - 1);
    } else {
      OutsideIsZero(descs, n, zeroing, last, end - footer);
    }
  }

  lemma WrongByte(descs: seq<Desc>, n: nat, zeroing: bool, header: u32, footer: u32, head: seq<byte>, tail: seq<byte>)
    requires DescsOk(descs) && |descs| >= 2 && !CanSplit(descs, n, header, footer)
    requires HeadFits(descs, header) && TailFits(descs, footer, LastBytes(descs, n))
    requires var ps := PagesAfter(descs, ZeroPages(|descs|), Ones(n), zeroing);
             head == Head(descs, ps, header)
               && tail == Tail(ps[|descs| - 1], TailEnd(descs, LastBytes(descs, n)), footer)
    ensures 0 in head || 0 in tail
  {
    if header > Count(descs, n, 0) {
      WrongHead(descs, n, zeroing, header);
      assert head[Count(descs, n, 0)] == 0;
    } else {
      WrongTail(descs, n, zeroing, footer, |descs| - 1, LastBytes(descs, n));
      assert tail[WrongAt(descs, n, footer, |descs| - 1)] == 0;
    }
  }

  lemma OnesOnly(n: nat, header: nat, footer: nat)
    requires header <= n && footer <= n
    ensures 0 !in Ones(n)[..header] + Ones(n)[n - footer..]
  {
  }

  // Otherwise a payload of ones on pages of zeros is not split right.
  lemma SplitGoesWrong(descs: seq<Desc>, n: nat, zeroing: bool, header: u32, footer: u32)
    requires DescsOk(descs) && !CanSplit(descs, n, header, footer)
    ensures !SplitsRight(descs, ZeroPages(|descs|), Ones(n), zeroing, header, footer)
  {
    var split := SplitFor(descs, ZeroPages(|descs|), Ones(n), zeroing, header, footer);
    if split.Buf? && header <= n && footer <= n {
      OnesOnly(n, header, footer);
      if |descs| == 1 {
        assert split.bytes != [] ==> split.bytes[0] == 0;
      } else {
        var ps := PagesAfter(descs, ZeroPages(|descs|), Ones(n), zeroing);
        WrongByte(descs, n, zeroing, header, footer, Head(descs, ps, header),
                  Tail(ps[|descs| - 1], TailEnd(descs, LastBytes(descs, n)), footer));
      }
    }
  }

  // The split gives header and footer of every payload of n bytes exactly under the condition above.
  lemma SplitExact(descs: seq<Desc>, n: nat, zeroing: bool, header: u32, footer: u32)
    requires DescsOk(descs)
    ensures (forall data: seq<byte>, pages: seq<seq<byte>> | |data| == n && WholePages(pages) && |pages| == |descs| ::
               SplitsRight(descs, pages, data, zeroing, header, footer)) <==>
            CanSplit(descs, n, header, footer)
  {
    if CanSplit(descs, n, header, footer) {
      forall data: seq<byte>, pages: seq<seq<byte>> | |data| == n && WholePages(pages) && |pages| == |descs|
        ensures SplitsRight(descs, pages, data, zeroing, header, footer)
      {
        SplitIsEnds(descs, pages, data, zeroing, header, footer);
      }
    } else {
      SplitGoesWrong(descs, n, zeroing, header, footer);
    }
  }

  const WHOLE_PAGE: Desc := Desc(0, PAGE_SIZE)

  // A reply on one page: the header that was asked for comes out as zeros, whatever the daemon sent.
  lemma OnePageReply(page: seq<byte>, data: seq<byte>)
    requires |page| == PAGE_SIZE && 8 <= |data| <= PAGE_SIZE && data[0] == 1
    ensures SplitFor([WHOLE_PAGE], [page], data, true, 8, 0) == Buf(Zeros(8))
    ensures !SplitsRight([WHOLE_PAGE], [page], data, true, 8, 0)
  {
    assert data[..8][0] == 1 && Zeros(8)[0] == 0;
    assert (data[..8] + data[|data| - 0..])[0] == 1;
  }

  // 100 bytes for two pages, a short read at the end of the file: the footer is read from in front of the second page.
  lemma ShortReply(pages: seq<seq<byte>>, data: seq<byte>)
    requires WholePages(pages) && |pages| == 2 && |data| == 100
    ensures SplitFor([WHOLE_PAGE, WHOLE_PAGE], pages, data, true, 0, 8) == OutOfRange
  {
    assert Rest([WHOLE_PAGE, WHOLE_PAGE], 100, 1) == 0;
  }

  // A header longer than the payload comes with bytes that were never sent, one longer than a page from behind it;
  // and with no page at all there is nothing to read from.
  lemma LongHeader(pages: seq<seq<byte>>, data: seq<byte>)
    requires WholePages(pages) && |pages| == 2 && |data| == 100
    ensures !SplitsRight([WHOLE_PAGE, WHOLE_PAGE], pages, data, true, 200, 0)
    ensures SplitFor([WHOLE_PAGE, WHOLE_PAGE], pages, data, true, 5000, 0) == OutOfRange
    ensures SplitFor([], [], data, true, 8, 0) == OutOfRange
  {
  }

  // fuse_copy_pages
  method CopyPagesAndSplit(cs: CopyState, descs: seq<Desc>, pages: seq<seq<byte>>, n: nat, zeroing: bool, header: u32,
                           footer: u32, memory: bool)
    returns (ok: bool, pages': seq<seq<byte>>, split: Split)
    requires cs.Valid() && n <= |cs.Left()| && DescsOk(descs) && WholePages(pages) && |pages| == |descs|
    modifies cs`next, cs`nrSegs, cs`pg, cs`offset, cs`len, cs`faults
    ensures cs.Valid()
    ensures ok ==> var data := old(cs.Left())[..n];
              && cs.Left() == old(cs.Left())[n - Rest(descs, n, |descs|)..]
              && pages' == PagesAfter(descs, pages, data, zeroing)
              && split == Given(memory, header, footer, SplitFor(descs, pages, data, zeroing, header, footer))
  {
    ghost var left := cs.Left();
    var lastBytes;
    split := NoSplit;
    ok, pages', lastBytes := CopyPages(cs, descs, pages, n, zeroing);
    if ok {
      assert pages' == PagesAfter(descs, pages, left[..n], zeroing);
      split := SplitPayload(descs, pages', header, footer, lastBytes, memory);
    }
  }

  // ------------------------------------------------ copy_out_args

  function Total(sizes: seq<nat>): nat { if sizes == [] then 0 else Total(sizes[..|sizes| - 1]) + sizes[|sizes| - 1] }

  // Whether a reply of nbytes, header included, fits arguments of the given sizes
  predicate Accepts(sizes: seq<nat>, argvar: bool, nbytes: nat) {
    var reqsize := OUT_HEADER_SIZE + Total(sizes);
    reqsize == nbytes || (reqsize > nbytes && argvar && sizes != [] && reqsize - nbytes <= sizes[|sizes| - 1])
  }

  // The sizes after the last, variable one has been shortened
  function Adjusted(sizes: seq<nat>, argvar: bool, nbytes: nat): (s: seq<nat>)
    requires Accepts(sizes, argvar, nbytes)
    ensures |s| == |sizes|
  {
    if OUT_HEADER_SIZE + Total(sizes) == nbytes then sizes
    else sizes[|sizes| - 1 := sizes[|sizes| - 1] - (OUT_HEADER_SIZE + Total(sizes) - nbytes)]
  }

  // An accepted reply is exactly as long as its arguments.
  lemma AdjustedTotal(sizes: seq<nat>, argvar: bool, nbytes: nat)
    requires Accepts(sizes, argvar, nbytes)
    ensures OUT_HEADER_SIZE + Total(Adjusted(sizes, argvar, nbytes)) == nbytes
  {
    if OUT_HEADER_SIZE + Total(sizes) != nbytes {
      assert Adjusted(sizes, argvar, nbytes)[..|sizes| - 1] == sizes[..|sizes| - 1];
    }
  }

  lemma TotalStep(sizes: seq<nat>, i: nat)
    requires i < |sizes|
    ensures Total(sizes[..i + 1]) == Total(sizes[..i]) + sizes[i]
  {
    assert sizes[..i + 1][..i] == sizes[..i];
  }

  lemma {:induction false} TotalGrows(sizes: seq<nat>, i: nat, k: nat)
    requires i <= k <= |sizes|
    ensures Total(sizes[..i]) <= Total(sizes[..k])
  {
    if i < k {
      TotalStep(sizes, k - 1);
      TotalGrows(sizes, i, k - 1);
    }
  }

  // Argument k is the k-th slice of the payload.
  predicate IsSlice(sizes: seq<nat>, val: seq<byte>, data: seq<byte>, k: nat)
    requires k < |sizes|
  {
    var a := Total(sizes[..k]);
    a + sizes[k] <= |data| && val == data[a..a + sizes[k]]
  }

  predicate ArgsReceived(sizes: seq<nat>, values: seq<seq<byte>>, data: seq<byte>) {
    |values| <= |sizes| && forall k | 0 <= k < |values| :: IsSlice(sizes, values[k], data, k)
  }

  // The first i arguments have been copied.
  ghost predicate CopiedArgs(cs: CopyState, left: seq<byte>, sizes: seq<nat>, values: seq<seq<byte>>, i: nat)
    reads cs
    requires i <= |sizes|
  {
    && cs.Valid() && |values| == i && Total(sizes[..i]) <= |left| && cs.Left() == left[Total(sizes[..i])..]
    && ArgsReceived(sizes, values, left)
  }

  method CopyNextValue(cs: CopyState, sizes: seq<nat>, values: seq<seq<byte>>, i: nat, ghost left: seq<byte>)
    returns (ok: bool, val: seq<byte>)
    requires i < |sizes| && CopiedArgs(cs, left, sizes, values, i) && Total(sizes[..i]) + sizes[i] <= |left|
    modifies cs`next, cs`nrSegs, cs`pg, cs`offset, cs`len, cs`faults
    ensures cs.Valid() && (ok ==> CopiedArgs(cs, left, sizes, values + [val], i + 1))
  {
    ok, val := cs.CopyOne(sizes[i]);
    if ok {
      NextValue(left, Total(sizes[..i]), val, cs.Left());
      TotalStep(sizes, i);
    }
  }

  // fuse_copy_args without the pages: count arguments, each filled with its size in bytes of the reply
  method CopyValues(cs: CopyState, sizes: seq<nat>, count: nat) returns (ok: bool, values: seq<seq<byte>>)
    requires cs.Valid() && count <= |sizes| && Total(sizes[..count]) <= |cs.Left()|
    modifies cs`next, cs`nrSegs, cs`pg, cs`offset, cs`len, cs`faults
    ensures cs.Valid() && (ok ==> CopiedArgs(cs, old(cs.Left()), sizes, values, count))
  {
    ghost var left := cs.Left();
    values := [];
    assert left[0..] == left;
    var i: nat := 0;
    while i < count
      invariant i <= count && CopiedArgs(cs, left, sizes, values, i)
    {
      TotalStep(sizes, i);
      TotalGrows(sizes, i + 1, count);
      var val;
      ok, val := CopyNextValue(cs, sizes, values, i, left);
      if !ok {
        return;
      }
      values, i := values + [val], i + 1;
    }
    ok := true;
  }

  lemma NextValue(left: seq<byte>, a: nat, val: seq<byte>, rest: seq<byte>)
    requires a <= |left| && val + rest == left[a..]
    ensures a + |val| <= |left| && val == left[a..a + |val|] && rest == left[a + |val|..]
  {
    assert left[a..][..|val|] == val && left[a..][|val|..] == rest;
    assert left[a..a + |val|] == left[a..][..|val|] && left[a + |val|..] == left[a..][|val|..];
  }

  datatype Reply = Rejected(error: int) | Aborted | Copied(values: seq<seq<byte>>, pages: seq<seq<byte>>, split: Split)

  // The pages, their descriptors, the header and footer that the reply asks to be split off, and whether there is
  // memory for the split
  datatype PageArgs =
    PageArgs(descs: seq<Desc>, pages: seq<seq<byte>>, zeroing: bool, header: u32, footer: u32, memory: bool) {
    predicate Ok() { DescsOk(descs) && WholePages(pages) && |pages| == |descs| }
  }

  // The pages and the split, for the payload data: given a buffer, the split is its ends wherever it can be.
  ghost predicate PagesDelivered(pa: PageArgs, pages: seq<seq<byte>>, split: Split, data: seq<byte>)
    requires pa.Ok()
  {
    && pages == PagesAfter(pa.descs, pa.pages, data, pa.zeroing)
    && split == Given(pa.memory, pa.header, pa.footer,
                      SplitFor(pa.descs, pa.pages, data, pa.zeroing, pa.header, pa.footer))
    && (CanSplit(pa.descs, |data|, pa.header, pa.footer) && !split.NoBuffer? ==>
          IsEnds(split, data, pa.header, pa.footer))
  }

  // What a completely copied reply looks like: with pages, the last argument is the payload of the pages.
  ghost predicate Delivered(r: Reply, sizes: seq<nat>, outPages: bool, pa: PageArgs, data: seq<byte>)
    requires r.Copied? && pa.Ok() && (outPages ==> sizes != []) && Total(sizes) == |data|
  {
    && |r.values| == (if outPages then |sizes| - 1 else |sizes|) && ArgsReceived(sizes, r.values, data)
    && (outPages ==>
          var a := Total(sizes[..|sizes| - 1]);
          a <= |data| && PagesDelivered(pa, r.pages, r.split, data[a..]))
  }

  // The check of copy_out_args
  method CheckLength(sizes0: seq<nat>, argvar: bool, nbytes: nat) returns (accepted: bool, sizes: seq<nat>)
    requires argvar ==> sizes0 != []
    ensures accepted <==> Accepts(sizes0, argvar, nbytes)
    ensures accepted ==> sizes == Adjusted(sizes0, argvar, nbytes)
  {
    var reqsize := OUT_HEADER_SIZE + Total(sizes0);
    sizes := sizes0;
    if reqsize < nbytes || (reqsize > nbytes && !argvar) {
      return false, sizes;
    } else if reqsize > nbytes {
      var diffsize := reqsize - nbytes;
      if diffsize > sizes[|sizes| - 1] {
        return false, sizes;
      }
      sizes := sizes[|sizes| - 1 := sizes[|sizes| - 1] - diffsize];
    }
    accepted := true;
  }

  method CopyPageArg(cs: CopyState, n: nat, pa: PageArgs) returns (ok: bool, pages: seq<seq<byte>>, split: Split)
    requires cs.Valid() && |cs.Left()| == n && pa.Ok()
    modifies cs`next, cs`nrSegs, cs`pg, cs`offset, cs`len, cs`faults
    ensures cs.Valid() && (ok ==> PagesDelivered(pa, pages, split, old(cs.Left())))
  {
    ghost var data := cs.Left();
    ok, pages, split := CopyPagesAndSplit(cs, pa.descs, pa.pages, n, pa.zeroing, pa.header, pa.footer,
                                          pa.memory);
    assert data[..n] == data;
    if CanSplit(pa.descs, n, pa.header, pa.footer) {
      SplitIsEnds(pa.descs, pa.pages, data, pa.zeroing, pa.header, pa.footer);
    }
  }

  // fuse_copy_args
  method CopyArgs(cs: CopyState, sizes: seq<nat>, outPages: bool, pa: PageArgs) returns (reply: Reply)
    requires cs.Valid() && Total(sizes) == |cs.Left()| && pa.Ok() && (outPages ==> sizes != [])
    modifies cs`next, cs`nrSegs, cs`pg, cs`offset, cs`len, cs`faults
    ensures cs.Valid() && !reply.Rejected?
    ensures reply.Copied? ==> Delivered(reply, sizes, outPages, pa, old(cs.Left()))
  {
    ghost var data := cs.Left();
    assert sizes[..|sizes|] == sizes;
    TotalGrows(sizes, if outPages then |sizes| - 1 else |sizes|, |sizes|);
    var ok, values;
    ok, values := CopyValues(cs, sizes, if outPages then |sizes| - 1 else |sizes|);
    if !ok {
      return Aborted;
    }
    if !outPages {
      return Copied(values, pa.pages, NoSplit);
    }
    var pages, split;
    ok, pages, split := CopyPageArg(cs, sizes[|sizes| - 1], pa);
    return if ok then Copied(values, pages, split) else Aborted;
  }

  // copy_out_args, with the payload after the header left in cs: the reply is rejected exactly if its length does not
  // fit; otherwise every argument, and the pages as the last one, receive consecutive slices of it, to its end.  The
  // split that follows the pages is the ends of what they were sent wherever it can be.
  method CopyOutArgs(cs: CopyState, sizes0: seq<nat>, argvar: bool, outPages: bool, pa: PageArgs, nbytes: nat)
    returns (reply: Reply)
    requires cs.Valid() && nbytes == OUT_HEADER_SIZE + |cs.Left()| && (argvar || outPages ==> sizes0 != []) && pa.Ok()
    modifies cs`next, cs`nrSegs, cs`pg, cs`offset, cs`len, cs`faults
    ensures cs.Valid() && (reply.Rejected? <==> !Accepts(sizes0, argvar, nbytes))
      && (reply.Rejected? ==> reply.error == -EINVAL)
    ensures reply.Copied? ==>
              Total(Adjusted(sizes0, argvar, nbytes)) == |old(cs.Left())| &&
              Delivered(reply, Adjusted(sizes0, argvar, nbytes), outPages, pa, old(cs.Left()))
  {
    var accepted, sizes := CheckLength(sizes0, argvar, nbytes);
    if !accepted {
      return Rejected(-EINVAL);
    }
    AdjustedTotal(sizes0, argvar, nbytes);
    reply := CopyArgs(cs, sizes, outPages, pa);
  }
}
