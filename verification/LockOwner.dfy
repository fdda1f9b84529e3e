// fuse_lock_owner_id of file.c: 32 rounds of XTEA (Needham and Wheeler, "Tea extensions") on the owner's 64-bit value.
module LockOwner {
  import opened Basics

  const TWO64: int := 0x1_0000_0000_0000_0000

  // Unsigned integers with the wrap-around of C
  type u64 = x: int | 0 <= x < TWO64

  function Add(a: u32, b: u32): u32 { (a + b) % TWO32 }
  function Sub(a: u32, b: u32): u32 { (a - b) % TWO32 }
  function Shl(a: u32, n: nat): u32 { a * Pow2(n) % TWO32 }
  function Shr(a: u32, n: nat): u32 { Shifted(a, n) }

  function Shifted(a: nat, n: nat): (r: nat)
    ensures r <= a
  {
    if n == 0 then a else Shifted(a / 2, n - 1)
  }

  // The exclusive or of the lowest n bits
  function XorBits(a: nat, b: nat, n: nat): (r: nat)
    ensures r < Pow2(n)
  {
    if n == 0 then 0 else (if a % 2 == b % 2 then 0 else 1) + 2 * XorBits(a / 2, b / 2, n - 1)
  }

  function Xor(a: u32, b: u32): u32 {
    Pow32();
    XorBits(a, b, 32)
  }

  const DELTA: u32 := 0x9E3779B9
  const ROUNDS: nat := 32

  // fc->scramble_key
  type Key = k: seq<u32> | |k| == 4 witness [0, 0, 0, 0]

  datatype Halves = Halves(v0: u32, v1: u32)

  function Mix(v: u32): u32 { Add(Xor(Shl(v, 4), Shr(v, 5)), v) }

  // What a half is changed by, first and second in a round
  function First(k: Key, v1: u32, sum: u32): u32 { Xor(Mix(v1), Add(sum, k[sum % 4])) }

  function Second(k: Key, v0: u32, sum: u32): u32 { Xor(Mix(v0), Add(sum, k[Shr(sum, 11) % 4])) }

  function Round(k: Key, v: Halves, sum: u32): Halves {
    var v0 := Add(v.v0, First(k, v.v1, sum));
    Halves(v0, Add(v.v1, Second(k, v0, Add(sum, DELTA))))
  }

  // What undoes a round
  function Unround(k: Key, v: Halves, sum: u32): Halves {
    var v1 := Sub(v.v1, Second(k, v.v0, Add(sum, DELTA)));
    Halves(Sub(v.v0, First(k, v1, sum)), v1)
  }

  // sum after n rounds
  function Sum(n: nat): u32 { if n == 0 then 0 else Add(Sum(n - 1), DELTA) }

  function Rounds(k: Key, v: Halves, n: nat): Halves
    decreases n
  {
    if n == 0 then v else Round(k, Rounds(k, v, n - 1), Sum(n - 1))
  }

  function Unrounds(k: Key, v: Halves, n: nat): Halves
    decreases n
  {
    if n == 0 then v else Unrounds(k, Unround(k, v, Sum(n - 1)), n - 1)
  }

  function Split(v: u64): Halves { Halves(v % TWO32, v / TWO32) }

  function Join(h: Halves): u64 { h.v0 + h.v1 * TWO32 }

  function Scramble(k: Key, id: u64): u64 { Join(Rounds(k, Split(id), ROUNDS)) }

  function Unscramble(k: Key, id: u64): u64 { Join(Unrounds(k, Split(id), ROUNDS)) }

  // The loop, for any number of rounds
  method Encipher(k: Key, v: Halves, rounds: nat) returns (v0: u32, v1: u32)
    ensures Halves(v0, v1) == Rounds(k, v, rounds)
  {
    v0, v1 := v.v0, v.v1;
    var sum: u32 := 0;
    var i := 0;
    while i < rounds
      invariant 0 <= i <= rounds && sum == Sum(i) && Halves(v0, v1) == Rounds(k, v, i)
    {
      v0 := Add(v0, First(k, v1, sum));
      sum := Add(sum, DELTA);
      v1 := Add(v1, Second(k, v0, sum));
      i := i + 1;
    }
  }

  method LockOwnerId(k: Key, id: u64) returns (r: u64)
    ensures r == Scramble(k, id)
  {
    var v0, v1 := Encipher(k, Split(id), ROUNDS);
    r := v0 + v1 * TWO32;
  }

  // ------------------------------------------------ every key permutes the 64-bit values

  lemma AddSub(a: u32, b: u32)
    ensures Sub(Add(a, b), b) == a && Add(Sub(a, b), b) == a
  {
  }

  lemma UndoRound(k: Key, v: Halves, sum: u32)
    ensures Unround(k, Round(k, v, sum), sum) == v
  {
    var v0 := Add(v.v0, First(k, v.v1, sum));
    AddSub(v.v1, Second(k, v0, Add(sum, DELTA)));
    AddSub(v.v0, First(k, v.v1, sum));
  }

  lemma RedoRound(k: Key, v: Halves, sum: u32)
    ensures Round(k, Unround(k, v, sum), sum) == v
  {
    var v1 := Sub(v.v1, Second(k, v.v0, Add(sum, DELTA)));
    AddSub(v.v1, Second(k, v.v0, Add(sum, DELTA)));
    AddSub(v.v0, First(k, v1, sum));
  }

  lemma {:induction false} UndoRounds(k: Key, v: Halves, n: nat)
    ensures Unrounds(k, Rounds(k, v, n), n) == v
    decreases n
  {
    if n > 0 {
      UndoRound(k, Rounds(k, v, n - 1), Sum(n - 1));
      UndoRounds(k, v, n - 1);
    }
  }

  lemma {:induction false} RedoRounds(k: Key, v: Halves, n: nat)
    ensures Rounds(k, Unrounds(k, v, n), n) == v
    decreases n
  {
    if n > 0 {
      RedoRounds(k, Unround(k, v, Sum(n - 1)), n - 1);
      RedoRound(k, v, Sum(n - 1));
    }
  }

  lemma SplitJoin(h: Halves)
    ensures Split(Join(h)) == h
  {
  }

  lemma JoinSplit(v: u64)
    ensures Join(Split(v)) == v
  {
  }

  // For every key, unscrambling undoes scrambling and the other way round.
  lemma Bijection(k: Key, v: u64)
    ensures Unscramble(k, Scramble(k, v)) == v && Scramble(k, Unscramble(k, v)) == v
  {
    SplitJoin(Rounds(k, Split(v), ROUNDS));
    UndoRounds(k, Split(v), ROUNDS);
    SplitJoin(Unrounds(k, Split(v), ROUNDS));
    RedoRounds(k, Split(v), ROUNDS);
    JoinSplit(v);
  }

  // Distinct owners never share an id.
  lemma DistinctOwners(k: Key, a: u64, b: u64)
    requires a != b
    ensures Scramble(k, a) != Scramble(k, b)
  {
    Bijection(k, a);
    Bijection(k, b);
  }
}
