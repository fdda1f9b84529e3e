// Counting the elements of a map that satisfy a predicate.
module Counting {

  ghost function Where<T(!new)>(m: map<nat, T>, p: T -> bool): set<nat> { set x | x in m && p(m[x]) }

  ghost function B(b: bool): int { if b then 1 else 0 }

  lemma Drop(a: set<nat>, x: nat)
    ensures |a - {x}| == |a| - B(x in a)
  {
    if x !in a {
      assert a - {x} == a;
    }
  }

  lemma WhereSame<T(!new)>(m: map<nat, T>, p: T -> bool, x: nat, v: T)
    ensures Where(m[x := v], p) - {x} == Where(m, p) - {x}
  {
  }

  // Replacing one element of a map changes a count by that element's own change.
  lemma WhereStep<T(!new)>(m: map<nat, T>, p: T -> bool, x: nat, v: T)
    ensures |Where(m[x := v], p)| == |Where(m, p)| - B(x in m && p(m[x])) + B(p(v))
    ensures x in m && p(m[x]) ==> |Where(m, p)| >= 1
  {
    WhereSame(m, p, x, v);
    var a, b := Where(m, p), Where(m[x := v], p);
    assert x in a <==> x in m && p(m[x]);
    assert x in b <==> p(v);
    Drop(a, x);
    Drop(b, x);
  }

  lemma WhereMinus<T(!new)>(m: map<nat, T>, p: T -> bool, x: nat)
    requires x in m
    ensures |Where(m - {x}, p)| == |Where(m, p)| - B(p(m[x]))
  {
    assert Where(m - {x}, p) == Where(m, p) - {x};
    Drop(Where(m, p), x);
  }

  lemma SubsetSize(a: set<nat>, b: set<nat>)
    requires a <= b
    ensures |a| <= |b|
  {
    assert b == a + (b - a);
  }
}
