// Writeback of one inode in file.c and dir.c: what each section under fi->lock does to the requests.
//
// The windows inside fuse_send_writepage in which fi->lock is dropped (1702-1704, 1717-1727) are taken not to admit
// another writeback thread.
module Writeback {
  import opened Basics
  import opened WritebackTree

  type Tid = nat

  const FUSE_NOWRITE: int := -0x8000_0000

  // An auxiliary request: one page that was written again while its request was under writeback.
  // A page's snapshots are numbered 1, 2, 3 ... in the order they are taken.
  datatype Aux = Aux(page: nat, snap: nat)

  // Building by a fuse_writepages thread, on fi->queued_writes, or sent with in.size bytes
  datatype Stage = Building(builder: Tid) | Queued | Sent(size: nat)

  // struct fuse_writepage_args of the pages first, first + 1, ...: the snapshot of each, and the chain wpa->next
  datatype Wpa = Wpa(snaps: seq<nat>, next: seq<Aux>, stage: Stage)

  // A write that includes some of a page: the page's snapshot, where in the file the write ends, and how long the file
  // was when it was sent
  datatype PageWrite = PageWrite(snap: nat, end: nat, isize: nat)

  // History of one page: its newest snapshot, the writes sent, how many of them have ended, and the last snapshot that
  // was dropped without being sent and without a newer one in its place
  datatype PageHist = PageHist(newest: nat, sent: seq<PageWrite>, ended: nat, lost: nat)

  type Hist = nat -> PageHist

  // What fi->lock protects
  datatype Core = Core(tree: Tree, reqs: map<nat, Wpa>, queue: seq<nat>, writectr: int, hist: Hist)

  predicate Covers(r: nat, w: Wpa, p: nat) { r <= p < r + |w.snaps| }

  ghost predicate Covered(reqs: map<nat, Wpa>, p: nat) { exists r | r in reqs :: Covers(r, reqs[r], p) }

  // ------------------------------------------------ auxiliary chains

  predicate HasAux(next: seq<Aux>, p: nat) { exists i | 0 <= i < |next| :: next[i].page == p }

  // The snapshot a chain holds of page p, or s if it holds none
  function AuxSnap(next: seq<Aux>, p: nat, s: nat): nat {
    if next == [] then s else if next[0].page == p then next[0].snap else AuxSnap(next[1..], p, s)
  }

  // fuse_writepage_add, 2097-2112: swap the new page into the chain, or put a new element at its head
  function Chain(next: seq<Aux>, p: nat, snap: nat): seq<Aux> {
    if HasAux(next, p) then SwapIn(next, p, snap) else [Aux(p, snap)] + next
  }

  function SwapIn(next: seq<Aux>, p: nat, snap: nat): seq<Aux> {
    if next == [] then []
    else if next[0].page == p then [Aux(p, snap)] + next[1..] else [next[0]] + SwapIn(next[1..], p, snap)
  }

  // ------------------------------------------------ fuse_send_writepage

  // in.size for a request of n pages from r on when the file ends at crop; 0 if truncated off completely
  function Cropped(r: nat, n: nat, crop: nat): nat {
    if (r + n) * PAGE_SIZE <= crop then n * PAGE_SIZE
    else if r * PAGE_SIZE < crop then crop - r * PAGE_SIZE
    else 0
  }

  // Whether a write of size bytes from page r on includes some of page p
  predicate Reaches(r: nat, size: nat, p: nat) { p * PAGE_SIZE < r * PAGE_SIZE + size }

  function Newest(r: nat, w: Wpa, p: nat): nat
    requires Covers(r, w, p)
  {
    AuxSnap(w.next, p, w.snaps[p - r])
  }

  function SendHist(h: Hist, r: nat, w: Wpa, size: nat, isize: nat): Hist {
    (p: nat) => if !Covers(r, w, p) then h(p)
         else if Reaches(r, size, p)
           then h(p).(sent := h(p).sent + [PageWrite(w.snaps[p - r], r * PAGE_SIZE + size, isize)])
         else h(p).(lost := w.snaps[p - r])
  }

  function DropHist(h: Hist, r: nat, w: Wpa): Hist {
    (p: nat) => if Covers(r, w, p) then h(p).(lost := Newest(r, w, p)) else h(p)
  }

  // broken: fuse_simple_background fails because the connection is broken.  isize, for the history, is the size of the
  // file, which need not be where the request is cropped.
  function Send(c: Core, r: nat, crop: nat, isize: nat, broken: bool): Core
    requires r in c.reqs
  {
    var w := c.reqs[r];
    var size := Cropped(r, |w.snaps|, crop);
    if size == 0 || broken then
      c.(tree := Erase(c.tree, r), reqs := c.reqs - {r}, hist := DropHist(c.hist, r, w))
    else
      c.(reqs := c.reqs[r := w.(stage := Sent(size))], writectr := c.writectr + 1,
         hist := SendHist(c.hist, r, w, size, isize))
  }

  // fuse_flush_writepages; broken holds the requests that meet a broken connection
  function Flush(c: Core, crop: nat, broken: set<nat>): Core
    decreases |c.queue|
  {
    if c.writectr < 0 || c.queue == [] then c
    else
      var r := c.queue[0];
      var c' := c.(queue := c.queue[1..]);
      if r in c'.reqs then Flush(Send(c', r, crop, crop, r in broken), crop, broken) else c'
  }

  // ------------------------------------------------ fuse_writepage_end

  function EndHist(h: Hist, r: nat, w: Wpa): Hist {
    (p: nat) => if Covers(r, w, p) && w.stage.Sent? && Reaches(r, w.stage.size, p) then h(p).(ended := h(p).ended + 1)
      else h(p)
  }

  // 1808
  function Unlinked(c: Core, r: nat): Core
    requires r in c.reqs
  {
    c.(tree := Erase(c.tree, r), reqs := c.reqs - {r}, hist := EndHist(c.hist, r, c.reqs[r]))
  }

  // tree_insert of a request of one page
  function Insert(c: Core, p: nat, snap: nat, stage: Stage): Core {
    c.(tree := Link(c.tree, p), reqs := c.reqs[p := Wpa([snap], [], stage)])
  }

  // 1809-1844: the auxiliary requests become requests of their own, cropped like the one they were chained to
  function Resend(c: Core, next: seq<Aux>, crop: nat, isize: nat, broken: set<nat>): Core
    decreases |next|
  {
    if next == [] then c
    else
      var c' := Insert(c, next[0].page, next[0].snap, Queued);
      Resend(Send(c', next[0].page, crop, isize, next[0].page in broken), next[1..], crop, isize, broken)
  }

  function End(c: Core, r: nat, isize: nat, broken: set<nat>): Core
    requires r in c.reqs && c.reqs[r].stage.Sent?
  {
    var w := c.reqs[r];
    var c' := Resend(Unlinked(c, r), w.next, r * PAGE_SIZE + w.stage.size, isize, broken);
    c'.(writectr := c'.writectr - 1)
  }

  // ------------------------------------------------ collecting pages

  function Noted(h: Hist, p: nat): Hist { (x: nat) => if x == p then h(x).(newest := h(x).newest + 1) else h(x) }

  // ap->num_pages++ with a copy of page p, 2236-2242
  function Grow(c: Core, r: nat, p: nat): Core
    requires r in c.reqs
  {
    var w := c.reqs[r];
    c.(reqs := c.reqs[r := w.(snaps := w.snaps + [c.hist(p).newest + 1])], hist := Noted(c.hist, p))
  }

  // fuse_writepage_add when no request covers page p ...
  function AddNew(c: Core, p: nat, stage: Stage): Core {
    Insert(c, p, c.hist(p).newest + 1, stage).(hist := Noted(c.hist, p))
  }

  // ... and when request r does
  function AddAux(c: Core, r: nat, p: nat): Core
    requires r in c.reqs
  {
    var w := c.reqs[r];
    c.(reqs := c.reqs[r := w.(next := Chain(w.next, p, c.hist(p).newest + 1))], hist := Noted(c.hist, p))
  }

  function Enqueue(c: Core, r: nat): Core
    requires r in c.reqs
  {
    c.(reqs := c.reqs[r := c.reqs[r].(stage := Queued)], queue := c.queue + [r])
  }
}
