// fuse_readdir as a whole: calls that are served from the cache or by the server, and what a series of them emits.
module ReaddirCalls {
  import opened Basics
  import opened DirentFormat
  import opened ReaddirLayout
  import opened ReaddirCache
  import opened ReaddirStream

  // What a READDIR request comes back with; without a page for the reply it is not even made
  datatype Answer = NoAnswer(error: int) | Reply(bytes: seq<byte>)

  // The server answers a request at the position behind i records of the listing with records that follow, at least one
  // if there is one, and at the end with nothing; or with an error.
  ghost predicate Honest(ls: seq<Dirent>, i: nat, a: Answer)
    requires Listing(ls) && i <= |ls|
  {
    match a
    case NoAnswer(error) => error < 0
    case Reply(bytes) =>
      if i == |ls| then bytes == []
      else exists e: nat, tail: seq<byte> :: IsReply(ls, i, e, tail, bytes)
  }

  predicate IsReply(ls: seq<Dirent>, i: nat, e: nat, tail: seq<byte>, bytes: seq<byte>)
    requires Listing(ls)
  {
    i < e <= |ls| && bytes == Records(ls, i, e) + tail && Stops(tail)
  }

  ghost predicate HonestServer(ls: seq<Dirent>, server: nat -> Answer)
    requires Listing(ls)
  {
    forall i: nat | i <= |ls| :: Honest(ls, i, server(Cookie(ls, i)))
  }

  lemma RecordsLong(ls: seq<Dirent>, a: nat, b: nat, tail: seq<byte>)
    requires Listing(ls) && a < b <= |ls|
    ensures Records(ls, a, b) + tail != []
  {
    RecordsHead(ls, a, b, tail);
    Lengths(ls[a]);
  }

  // fuse_readdir_uncached for a caller behind i0 records: the server's records go to the caller, and to the cache; at
  // the end of the directory the cache is marked complete.  Without an error a caller with room gets on, unless at the
  // end.
  method ReaddirUncached(cache: DirCache, ctx: DirContext, server: nat -> Answer, how: Filler, ghost ls: seq<Dirent>,
                         ghost i0: nat)
    returns (r: int, ghost i: nat)
    requires cache.Valid(ls) && how.Ok(ls) && i0 <= |ls| && ctx.pos == Cookie(ls, i0) && HonestServer(ls, server)
    modifies cache, ctx
    ensures cache.Valid(ls) && Emitted(ctx, ls, i0, i, old(ctx.out), old(ctx.room))
    ensures r >= 0 && old(ctx.room) > 0 ==> i > i0 || i == |ls|
  {
    i := i0;
    assert ls[i0..i0] == [];
    var a := server(ctx.pos);
    assert Honest(ls, i0, a);
    match a
    case NoAnswer(error) =>
      r := error;
    case Reply(bytes) =>
      if bytes == [] {
        r := 0;
        if how.caching {
          GapOpsOk(ls, how.gaps, 0);
          Others(cache, GapAt(how.gaps, 0).ops, ls);
          AtTheEnd(ls, i0, bytes);
          var end := cache.CacheEnd(ls, ctx.pos);
        } else {
          AtTheEnd(ls, i0, bytes);
        }
      } else {
        ghost var e: nat, tail: seq<byte> :| IsReply(ls, i0, e, tail, bytes);
        var ok;
        ok, i := ParseDirfile(cache, ctx, bytes, how, ls, i0, e, tail);
        r := if ok then |bytes| else -EIO;
      }
  }

  lemma AtTheEnd(ls: seq<Dirent>, i: nat, bytes: seq<byte>)
    requires Listing(ls) && i <= |ls| && Honest(ls, i, Reply(bytes)) && bytes == []
    ensures i == |ls|
  {
    forall e: nat, tail: seq<byte> ensures !IsReply(ls, i, e, tail, bytes) {
      if i < e <= |ls| {
        RecordsLong(ls, i, e, tail);
      }
    }
  }

  // One call: the caller's buffer, what other threads do while the cache is read and while it is filled, and the server
  datatype Call = Call(room: nat, env: seq<Gap>, how: Filler, server: nat -> Answer) {
    ghost predicate Ok(ls: seq<Dirent>) { Listing(ls) && GapsOk(ls, env) && how.Ok(ls) && HonestServer(ls, server) }
  }

  // fuse_readdir for a caller behind i0 records of the listing: whether the cache or the server serves it, or one after
  // the other, what it emits is what follows in the listing, and without an error a caller with room gets on, unless at
  // the end.
  method Readdir(cache: DirCache, ff: DirStream, ctx: DirContext, call: Call, ghost ls: seq<Dirent>, ghost j0: nat,
                 ghost i0: nat)
    returns (r: int, ghost i: nat, ghost j: nat)
    requires cache.Valid(ls) && ff.At(ls, j0) && call.Ok(ls) && i0 <= |ls| && ctx.pos == Cookie(ls, i0)
    modifies cache, ff, ctx
    ensures cache.Valid(ls) && ff.At(ls, j) && Emitted(ctx, ls, i0, i, old(ctx.out), old(ctx.room))
    ensures r >= 0 && old(ctx.room) > 0 ==> i > i0 || i == |ls|
  {
    r, i, j := 0, i0, j0;
    assert ls[i0..i0] == [];
    var served := Uncached;
    if call.how.caching {
      served, i, j := ReaddirCached(cache, ff, ctx, call.env, ls, j0, i0);
    }
    if served.Uncached? {
      ghost var i1, out, room := i, ctx.out, ctx.room;
      r, i := ReaddirUncached(cache, ctx, call.server, call.how, ls, i1);
      EmittedJoin(ctx, ls, i0, i1, i, old(ctx.out), old(ctx.room), out, room);
    }
  }

  lemma TotalJoin(ls: seq<Dirent>, i0: nat, i: nat)
    requires i0 <= i <= |ls|
    ensures Entries(ls[..i]) == Entries(ls[..i0]) + Entries(ls[i0..i])
  {
    EntriesJoin(ls, 0, i0, i);
    assert ls[0..i0] == ls[..i0] && ls[0..i] == ls[..i];
  }

  // One call with a buffer of its own
  method OneCall(cache: DirCache, ff: DirStream, pos: nat, call: Call, ghost ls: seq<Dirent>, ghost j0: nat,
                 ghost i0: nat)
    returns (r: int, out: seq<Entry>, pos': nat, ghost i: nat, ghost j: nat)
    requires cache.Valid(ls) && ff.At(ls, j0) && call.Ok(ls) && i0 <= |ls| && pos == Cookie(ls, i0)
    modifies cache, ff
    ensures cache.Valid(ls) && ff.At(ls, j) && i0 <= i <= |ls| && pos' == Cookie(ls, i) && out == Entries(ls[i0..i])
    ensures r >= 0 && call.room > 0 ==> i > i0 || i == |ls|
  {
    var ctx := new DirContext(pos, call.room);
    r, i, j := Readdir(cache, ff, ctx, call, ls, j0, i0);
    out, pos' := ctx.out, ctx.pos;
    assert [] + Entries(ls[i0..i]) == Entries(ls[i0..i]);
  }

  // Calls with room that have succeeded
  predicate AllFine(calls: seq<Call>, results: seq<int>) {
    |results| <= |calls| && forall k | 0 <= k < |results| :: results[k] >= 0 && calls[k].room > 0
  }

  lemma FineStep(calls: seq<Call>, results: seq<int>, r: int)
    requires |results| < |calls| && AllFine(calls, results + [r])
    ensures AllFine(calls, results) && r >= 0 && calls[|results|].room > 0
  {
    assert (results + [r])[|results|] == r;
    assert forall k | 0 <= k < |results| :: (results + [r])[k] == results[k];
  }

  // A directory that is read from its beginning by any number of calls, each with a buffer of its own, while other
  // threads use the cache: what the calls emit, one after the other, is the listing from its beginning, every record
  // once and in order; and as long as calls with room succeed, it is all of it after as many calls as it has records.
  method ReadDirectory(cache: DirCache, ff: DirStream, calls: seq<Call>, ghost ls: seq<Dirent>)
    returns (total: seq<Entry>, results: seq<int>, ghost i: nat)
    requires cache.Valid(ls) && ff.At(ls, 0) && forall c | c in calls :: c.Ok(ls)
    modifies cache, ff
    ensures cache.Valid(ls) && i <= |ls| && total == Entries(ls[..i]) && |results| == |calls|
    ensures AllFine(calls, results) && |calls| >= |ls| ==> total == Entries(ls)
  {
    total, results, i := [], [], 0;
    ghost var j: nat := 0;
    var pos := 0;
    while |results| < |calls|
      invariant cache.Valid(ls) && i <= |ls| && pos == Cookie(ls, i) && total == Entries(ls[..i]) && ff.At(ls, j)
      invariant |results| <= |calls| && (AllFine(calls, results) ==> i >= |results| || i == |ls|)
      decreases |calls| - |results|
    {
      ghost var i1 := i;
      var call := calls[|results|];
      var r, out;
      r, out, pos, i, j := OneCall(cache, ff, pos, call, ls, j, i1);
      TotalJoin(ls, i1, i);
      if AllFine(calls, results + [r]) {
        FineStep(calls, results, r);
      }
      total, results := total + out, results + [r];
    }
    assert ls[..|ls|] == ls;
  }
}
