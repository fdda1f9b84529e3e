// What several parts share: bytes, pages, wrapping integers and error numbers.
module Basics {

  type byte = b: int | 0 <= b < 256

  const PAGE_SIZE: nat := 4096
  const TWO32: int := 0x1_0000_0000

  type u32 = x: int | 0 <= x < TWO32

  const EIO: int := 5
  const EAGAIN: int := 11
  const EINVAL: int := 22
  const ENOSYS: int := 38

  function Min(a: nat, b: nat): nat { if a < b then a else b }

  // PAGE_ALIGN and round_up(n, PAGE_SIZE)
  function Align(n: nat): nat { (n + PAGE_SIZE - 1) / PAGE_SIZE * PAGE_SIZE }

  // No element is on the list twice
  predicate Distinct<T(==)>(s: seq<T>) { forall i, j | 0 <= i < j < |s| :: s[i] != s[j] }

  function Pow2(n: nat): (r: nat)
    ensures r >= 1
  {
    if n == 0 then 1 else 2 * Pow2(n - 1)
  }

  lemma Pow32()
    ensures Pow2(32) == TWO32
  {
    assert Pow2(8) == 256;
    assert Pow2(16) == 256 * Pow2(8);
    assert Pow2(24) == 256 * Pow2(16);
    assert Pow2(32) == 256 * Pow2(24);
  }

  function Zeros(n: nat): (s: seq<byte>)
    ensures |s| == n
  {
    seq(n, _ => 0)
  }

  // memcpy of data into a page at offset o
  function Overwrite(page: seq<byte>, o: nat, data: seq<byte>): (s: seq<byte>)
    requires o + |data| <= |page|
    ensures |s| == |page|
  {
    page[..o] + data + page[o + |data|..]
  }

  // A slice of a slice
  lemma SubSlice(s: seq<byte>, o: nat, n: nat, i: nat, j: nat)
    requires i <= j <= n && o + n <= |s|
    ensures s[o..o + n][i..j] == s[o + i..o + j]
  {
    var a := s[o..o + n];
    assert forall k | 0 <= k < j - i :: a[i..j][k] == a[i + k] == s[o + i + k] == s[o + i..o + j][k];
  }
}
