// struct fuse_dirent as bytes: ino, off, namelen, type, the name, and padding to a multiple of 8.
module DirentFormat {
  import opened Basics

  const FUSE_NAME_OFFSET: nat := 24
  const FUSE_NAME_MAX: nat := 1024
  const SLASH: byte := 47

  // ------------------------------------------------ little-endian numbers

  function Pow256(k: nat): (r: nat)
    ensures r >= 1
  {
    if k == 0 then 1 else 256 * Pow256(k - 1)
  }

  function Le(n: nat, k: nat): (s: seq<byte>)
    ensures |s| == k
  {
    if k == 0 then [] else [n % 256] + Le(n / 256, k - 1)
  }

  function FromLe(s: seq<byte>): nat { if s == [] then 0 else s[0] + 256 * FromLe(s[1..]) }

  lemma {:induction false} LeRound(n: nat, k: nat)
    requires n < Pow256(k)
    ensures FromLe(Le(n, k)) == n
  {
    if k > 0 {
      LeRound(n / 256, k - 1);
      assert Le(n, k)[1..] == Le(n / 256, k - 1);
    }
  }

  // ------------------------------------------------ records

  // pad: the bytes between the end of the name and the end of the record, which the server may set as it likes
  datatype Dirent = Dirent(ino: nat, off: nat, typ: nat, name: seq<byte>, pad: seq<byte>)

  // FUSE_DIRENT_SIZE for a name of n bytes
  function RecLen(n: nat): nat { (FUSE_NAME_OFFSET + n + 7) / 8 * 8 }

  predicate Valid(d: Dirent) {
    && d.ino < Pow256(8) && d.off < Pow256(8) && d.typ < Pow256(4)
    && 1 <= |d.name| <= FUSE_NAME_MAX && SLASH !in d.name
    && |d.pad| == RecLen(|d.name|) - FUSE_NAME_OFFSET - |d.name|
  }

  function Record(d: Dirent): (s: seq<byte>)
    requires Valid(d)
    ensures |s| == RecLen(|d.name|)
  {
    Le(d.ino, 8) + (Le(d.off, 8) + (Le(|d.name|, 4) + (Le(d.typ, 4) + (d.name + d.pad))))
  }

  // The fields of the record at offset o of a buffer
  function InoAt(s: seq<byte>, o: nat): nat requires o + 24 <= |s| { FromLe(s[o..o + 8]) }
  function OffAt(s: seq<byte>, o: nat): nat requires o + 24 <= |s| { FromLe(s[o + 8..o + 16]) }
  function NamelenAt(s: seq<byte>, o: nat): nat requires o + 24 <= |s| { FromLe(s[o + 16..o + 20]) }
  function TypeAt(s: seq<byte>, o: nat): nat requires o + 24 <= |s| { FromLe(s[o + 20..o + 24]) }
  function NameAt(s: seq<byte>, o: nat): seq<byte>
    requires o + 24 <= |s| && o + 24 + NamelenAt(s, o) <= |s|
  {
    s[o + 24..o + 24 + NamelenAt(s, o)]
  }

  predicate HoldsRecord(s: seq<byte>, o: nat, d: Dirent) {
    Valid(d) && o + RecLen(|d.name|) <= |s| && s[o..o + RecLen(|d.name|)] == Record(d)
  }

  lemma Pow256Values()
    ensures Pow256(4) == 0x1_0000_0000 && Pow256(8) == 0x1_0000_0000_0000_0000
  {
    assert Pow256(2) == 65536;
    assert Pow256(4) == 65536 * 65536;
    assert Pow256(6) == 65536 * Pow256(4);
  }

  // In s = p + x + y, the part x and what follows it
  lemma Part(s: seq<byte>, o: nat, x: seq<byte>, y: seq<byte>)
    requires o <= |s| && s[o..] == x + y
    ensures s[o..o + |x|] == x && s[o + |x|..] == y
  {
    var u := s[o..];
    SubSlice(s, o, |u|, 0, |x|);
    SubSlice(s, o, |u|, |x|, |u|);
    assert u[0..|x|] == x && u[|x|..|u|] == y;
    assert s[o + |x|..o + |u|] == s[o + |x|..];
  }

  lemma FieldsOf(d: Dirent)
    requires Valid(d)
    ensures var r := Record(d);
            && r[0..8] == Le(d.ino, 8) && r[8..16] == Le(d.off, 8) && r[16..20] == Le(|d.name|, 4)
            && r[20..24] == Le(d.typ, 4) && r[24..24 + |d.name|] == d.name && r[24 + |d.name|..] == d.pad
  {
    var r := Record(d);
    var y4 := d.name + d.pad;
    var y3 := Le(d.typ, 4) + y4;
    var y2 := Le(|d.name|, 4) + y3;
    var y1 := Le(d.off, 8) + y2;
    assert r[0..] == r;
    Part(r, 0, Le(d.ino, 8), y1);
    Part(r, 8, Le(d.off, 8), y2);
    Part(r, 16, Le(|d.name|, 4), y3);
    Part(r, 20, Le(d.typ, 4), y4);
    Part(r, 24, d.name, d.pad);
  }

  lemma NumbersAt(s: seq<byte>, o: nat, d: Dirent)
    requires HoldsRecord(s, o, d)
    ensures NamelenAt(s, o) == |d.name| && InoAt(s, o) == d.ino && OffAt(s, o) == d.off && TypeAt(s, o) == d.typ
  {
    var n := RecLen(|d.name|);
    FieldsOf(d);
    SubSlice(s, o, n, 0, 8);
    SubSlice(s, o, n, 8, 16);
    SubSlice(s, o, n, 16, 20);
    SubSlice(s, o, n, 20, 24);
    Pow256Values();
    LeRound(d.ino, 8);
    LeRound(d.off, 8);
    LeRound(|d.name|, 4);
    LeRound(d.typ, 4);
  }

  lemma NameSlice(s: seq<byte>, o: nat, d: Dirent, n: nat)
    requires Valid(d) && 24 + |d.name| <= n && o + n <= |s| && s[o..o + n] == Record(d)
    ensures s[o + 24..o + 24 + |d.name|] == d.name
  {
    var r := s[o..o + n];
    assert r[24..24 + |d.name|] == d.name by {
      FieldsOf(d);
    }
    SubSlice(s, o, n, 24, 24 + |d.name|);
  }

  // Where a buffer holds a record, its fields can be read back.
  lemma ReadBack(s: seq<byte>, o: nat, d: Dirent)
    requires HoldsRecord(s, o, d)
    ensures NamelenAt(s, o) == |d.name| && InoAt(s, o) == d.ino && OffAt(s, o) == d.off && TypeAt(s, o) == d.typ
    ensures NameAt(s, o) == d.name
  {
    NumbersAt(s, o, d);
    NameSlice(s, o, d, RecLen(|d.name|));
  }

  // The record at offset o of a buffer as a whole
  function DirentAt(s: seq<byte>, o: nat): Dirent
    requires o + 24 <= |s| && o + RecLen(NamelenAt(s, o)) <= |s|
  {
    Dirent(InoAt(s, o), OffAt(s, o), TypeAt(s, o), NameAt(s, o),
           s[o + 24 + NamelenAt(s, o)..o + RecLen(NamelenAt(s, o))])
  }

  lemma PadAt(s: seq<byte>, o: nat, d: Dirent)
    requires HoldsRecord(s, o, d)
    ensures s[o + 24 + |d.name|..o + RecLen(|d.name|)] == d.pad
  {
    FieldsOf(d);
    var n, m := RecLen(|d.name|), 24 + |d.name|;
    SubSlice(s, o, n, m, n);
    var r := s[o..o + n];
    assert r[m..n] == r[m..];
  }

  // Encoding a record and decoding it gives the record back.
  lemma DecodeRecord(s: seq<byte>, o: nat, d: Dirent)
    requires HoldsRecord(s, o, d)
    ensures o + 24 <= |s| && NamelenAt(s, o) == |d.name| && DirentAt(s, o) == d
  {
    ReadBack(s, o, d);
    PadAt(s, o, d);
  }

  lemma {:induction false} ZeroLe(s: seq<byte>)
    requires forall k | 0 <= k < |s| :: s[k] == 0
    ensures FromLe(s) == 0
  {
    if s != [] {
      ZeroLe(s[1..]);
    }
  }
}
