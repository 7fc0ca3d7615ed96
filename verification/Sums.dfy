/** Sums of dollars: over a list, over a set of keys, and per key of a list. */
module Sums {

  function SumBy<T>(xs: seq<T>, f: T -> real): real {
    if xs == [] then 0.0 else SumBy(xs[..|xs| - 1], f) + f(xs[|xs| - 1])
  }

  /** Any element may be taken first: SumSplit. */
  ghost function SumOver<K(!new)>(keys: set<K>, f: K -> real): real {
    if keys == {} then 0.0
    else
      var k :| k in keys;
      f(k) + SumOver(keys - {k}, f)
  }

  function At<K>(m: map<K, real>, k: K): real {
    if k in m then m[k] else 0.0
  }

  /** What adding v to a key's line makes of the lines. */
  function Plus<K>(m: map<K, real>, k: K, v: real): map<K, real> {
    m[k := At(m, k) + v]
  }

  function Values<K>(m: map<K, real>): K -> real {
    k => At(m, k)
  }

  /** What the lines add up to. */
  ghost function SumMap<K(!new)>(m: map<K, real>): real {
    SumOver(m.Keys, Values(m))
  }

  /** One line per key: the sum of that key's elements. */
  function Tallied<T, K>(xs: seq<T>, keyOf: T -> K, f: T -> real): map<K, real> {
    if xs == [] then map[]
    else
      var x := xs[|xs| - 1];
      Plus(Tallied(xs[..|xs| - 1], keyOf, f), keyOf(x), f(x))
  }

  /** An element's amount on one key, and nothing on the others. */
  function On<T, K(==)>(keyOf: T -> K, f: T -> real, k: K): T -> real {
    x => if keyOf(x) == k then f(x) else 0.0
  }

  function Filter<T>(xs: seq<T>, keep: T -> bool): seq<T> {
    if xs == [] then []
    else Filter(xs[..|xs| - 1], keep) + if keep(xs[|xs| - 1]) then [xs[|xs| - 1]] else []
  }

  /** An element's amount if it is kept, and nothing if it is not. */
  function If<T>(keep: T -> bool, f: T -> real): T -> real {
    x => if keep(x) then f(x) else 0.0
  }

  // Lists.

  lemma {:induction false} SumSame<T>(xs: seq<T>, f: T -> real, g: T -> real)
    requires forall x <- xs :: f(x) == g(x)
    ensures SumBy(xs, f) == SumBy(xs, g)
  {
    if xs != [] {
      SumSame(xs[..|xs| - 1], f, g);
      assert xs[|xs| - 1] in xs;
    }
  }

  lemma {:induction false} SumAdds<T>(xs: seq<T>, f: T -> real, g: T -> real, h: T -> real)
    requires forall x <- xs :: h(x) == f(x) + g(x)
    ensures SumBy(xs, h) == SumBy(xs, f) + SumBy(xs, g)
  {
    if xs != [] {
      SumAdds(xs[..|xs| - 1], f, g, h);
      assert xs[|xs| - 1] in xs;
    }
  }

  lemma {:induction false} SumNotNegative<T>(xs: seq<T>, f: T -> real)
    requires forall x <- xs :: f(x) >= 0.0
    ensures SumBy(xs, f) >= 0.0
  {
    if xs != [] {
      SumNotNegative(xs[..|xs| - 1], f);
      assert xs[|xs| - 1] in xs;
    }
  }

  lemma {:induction false} SumZero<T>(xs: seq<T>, f: T -> real)
    requires forall x <- xs :: f(x) == 0.0
    ensures SumBy(xs, f) == 0.0
  {
    if xs != [] {
      SumZero(xs[..|xs| - 1], f);
      assert xs[|xs| - 1] in xs;
    }
  }

  lemma {:induction false} SumJoins<T>(a: seq<T>, b: seq<T>, f: T -> real)
    ensures SumBy(a + b, f) == SumBy(a, f) + SumBy(b, f)
  {
    if b == [] {
      assert a + b == a;
    } else {
      SumJoins(a, b[..|b| - 1], f);
      assert (a + b)[..|a + b| - 1] == a + b[..|b| - 1];
    }
  }

  lemma Without<T>(xs: seq<T>, i: nat)
    requires i < |xs|
    ensures multiset(xs) == multiset(xs[..i] + xs[i + 1..]) + multiset{xs[i]}
  {
    assert xs == xs[..i] + ([xs[i]] + xs[i + 1..]);
  }

  lemma SumWithout<T>(xs: seq<T>, i: nat, f: T -> real)
    requires i < |xs|
    ensures SumBy(xs, f) == SumBy(xs[..i] + xs[i + 1..], f) + f(xs[i])
  {
    var a, b := xs[..i + 1], xs[i + 1..];
    assert xs == a + b && a[..i] == xs[..i];
    SumJoins(a, b, f);
    SumJoins(xs[..i], b, f);
  }

  /** The order of a list makes no difference to its sum. */
  lemma {:induction false} SumPermutes<T>(xs: seq<T>, ys: seq<T>, f: T -> real)
    requires multiset(xs) == multiset(ys)
    ensures SumBy(xs, f) == SumBy(ys, f)
    decreases |xs|
  {
    if xs == [] {
      assert |multiset(ys)| == 0;
    } else {
      var x := xs[0];
      assert x in multiset(ys);
      var i :| 0 <= i < |ys| && ys[i] == x;
      Without(xs, 0);
      Without(ys, i);
      SumWithout(xs, 0, f);
      SumWithout(ys, i, f);
      var xs', ys' := xs[..0] + xs[1..], ys[..i] + ys[i + 1..];
      assert multiset(xs') == multiset(xs) - multiset{x} && multiset(ys') == multiset(ys) - multiset{x};
      SumPermutes(xs', ys', f);
    }
  }

  lemma {:induction false} SumFiltered<T>(xs: seq<T>, keep: T -> bool, f: T -> real)
    ensures SumBy(Filter(xs, keep), f) == SumBy(xs, If(keep, f))
  {
    if xs != [] {
      var before, x := xs[..|xs| - 1], xs[|xs| - 1];
      SumFiltered(before, keep, f);
      if keep(x) {
        assert Filter(xs, keep)[..|Filter(before, keep)|] == Filter(before, keep);
      } else {
        assert Filter(xs, keep) == Filter(before, keep);
      }
    }
  }

  lemma FilterGrows<T>(xs: seq<T>, keep: T -> bool, i: nat)
    requires i < |xs|
    ensures Filter(xs[..i + 1], keep) == Filter(xs[..i], keep) + if keep(xs[i]) then [xs[i]] else []
  {
    assert xs[..i + 1][..i] == xs[..i];
  }

  lemma TalliedGrows<T, K>(xs: seq<T>, keyOf: T -> K, f: T -> real, x: T)
    ensures Tallied(xs + [x], keyOf, f) == Plus(Tallied(xs, keyOf, f), keyOf(x), f(x))
  {
    assert (xs + [x])[..|xs|] == xs;
  }

  // Sets of keys.

  lemma {:induction false} SumSplit<K(!new)>(keys: set<K>, f: K -> real, k: K)
    requires k in keys
    ensures SumOver(keys, f) == f(k) + SumOver(keys - {k}, f)
    decreases |keys|
  {
    var first :| first in keys && SumOver(keys, f) == f(first) + SumOver(keys - {first}, f);
    if first != k {
      SumSplit(keys - {first}, f, k);
      SumSplit(keys - {k}, f, first);
      assert keys - {first} - {k} == keys - {k} - {first};
    }
  }

  lemma {:induction false} SumOverSame<K(!new)>(keys: set<K>, f: K -> real, g: K -> real)
    requires forall k <- keys :: f(k) == g(k)
    ensures SumOver(keys, f) == SumOver(keys, g)
    decreases |keys|
  {
    if keys != {} {
      var k :| k in keys;
      SumSplit(keys, f, k);
      SumSplit(keys, g, k);
      SumOverSame(keys - {k}, f, g);
    }
  }

  lemma {:induction false} SumOverAdds<K(!new)>(keys: set<K>, f: K -> real, g: K -> real, h: K -> real)
    requires forall k <- keys :: h(k) == f(k) + g(k)
    ensures SumOver(keys, h) == SumOver(keys, f) + SumOver(keys, g)
    decreases |keys|
  {
    if keys != {} {
      var k :| k in keys;
      SumSplit(keys, f, k);
      SumSplit(keys, g, k);
      SumSplit(keys, h, k);
      SumOverAdds(keys - {k}, f, g, h);
    }
  }

  lemma {:induction false} SumOverZero<K(!new)>(keys: set<K>, f: K -> real)
    requires forall k <- keys :: f(k) == 0.0
    ensures SumOver(keys, f) == 0.0
    decreases |keys|
  {
    if keys != {} {
      var k :| k in keys;
      SumSplit(keys, f, k);
      SumOverZero(keys - {k}, f);
    }
  }

  lemma {:induction false} SumOverNotNegative<K(!new)>(keys: set<K>, f: K -> real)
    requires forall k <- keys :: f(k) >= 0.0
    ensures SumOver(keys, f) >= 0.0
    decreases |keys|
  {
    if keys != {} {
      var k :| k in keys;
      SumSplit(keys, f, k);
      SumOverNotNegative(keys - {k}, f);
    }
  }

  lemma SumOverPositive<K(!new)>(keys: set<K>, f: K -> real, some: K)
    requires (forall k <- keys :: f(k) >= 0.0) && some in keys && f(some) > 0.0
    ensures SumOver(keys, f) > 0.0
  {
    SumSplit(keys, f, some);
    SumOverNotNegative(keys - {some}, f);
  }

  // Lines.

  /** Adding to a line adds as much to what the lines add up to. */
  lemma PlusAdds<K(!new)>(m: map<K, real>, k: K, v: real)
    ensures SumMap(Plus(m, k, v)) == SumMap(m) + v
  {
    var m' := Plus(m, k, v);
    assert m'.Keys == m.Keys + {k};
    SumSplit(m'.Keys, Values(m'), k);
    SumOverSame(m'.Keys - {k}, Values(m), Values(m'));
    if k in m {
      SumSplit(m.Keys, Values(m), k);
      assert m'.Keys - {k} == m.Keys - {k};
    } else {
      assert m'.Keys - {k} == m.Keys;
    }
  }

  /** The lines add up to the sum of the list, whatever they are lines of. */
  lemma {:induction false} LinesAddUp<T, K(!new)>(xs: seq<T>, keyOf: T -> K, f: T -> real)
    ensures SumMap(Tallied(xs, keyOf, f)) == SumBy(xs, f)
  {
    if xs == [] {
      assert Tallied(xs, keyOf, f).Keys == {};
    } else {
      var x := xs[|xs| - 1];
      LinesAddUp(xs[..|xs| - 1], keyOf, f);
      PlusAdds(Tallied(xs[..|xs| - 1], keyOf, f), keyOf(x), f(x));
    }
  }

  /** Each line is the sum of its key's elements. */
  lemma {:induction false} LineIs<T, K>(xs: seq<T>, keyOf: T -> K, f: T -> real, k: K)
    ensures At(Tallied(xs, keyOf, f), k) == SumBy(xs, On(keyOf, f, k))
    ensures k in Tallied(xs, keyOf, f) <==> exists x <- xs :: keyOf(x) == k
  {
    if xs != [] {
      var before, x := xs[..|xs| - 1], xs[|xs| - 1];
      LineIs(before, keyOf, f, k);
      assert xs == before + [x];
    }
  }

  /** The order of a list makes no difference to its lines. */
  lemma LinesPermute<T, K(!new)>(xs: seq<T>, ys: seq<T>, keyOf: T -> K, f: T -> real)
    requires multiset(xs) == multiset(ys)
    ensures Tallied(xs, keyOf, f) == Tallied(ys, keyOf, f)
  {
    var a, b := Tallied(xs, keyOf, f), Tallied(ys, keyOf, f);
    forall k ensures (k in a <==> k in b) && At(a, k) == At(b, k) {
      LineIs(xs, keyOf, f, k);
      LineIs(ys, keyOf, f, k);
      SumPermutes(xs, ys, On(keyOf, f, k));
      assert forall x :: x in xs <==> x in multiset(xs);
      assert forall x :: x in ys <==> x in multiset(ys);
    }
    assert a.Keys == b.Keys;
    assert forall k <- a.Keys :: a[k] == At(a, k) && b[k] == At(b, k);
  }

  /** Summing each key's elements, over all keys, sums the list. */
  lemma {:induction false} Grouped<T, K(!new)>(xs: seq<T>, keys: set<K>, keyOf: T -> K, f: T -> real, group: K -> real)
    requires forall x <- xs :: keyOf(x) in keys
    requires forall k :: group(k) == SumBy(xs, On(keyOf, f, k))
    ensures SumOver(keys, group) == SumBy(xs, f)
  {
    if xs == [] {
      SumOverZero(keys, group);
    } else {
      var before, x := xs[..|xs| - 1], xs[|xs| - 1];
      var earlier: K -> real := k => SumBy(before, On(keyOf, f, k));
      var last: K -> real := k => On(keyOf, f, k)(x);
      assert forall y <- before :: y in xs;
      Grouped(before, keys, keyOf, f, earlier);
      SumOverAdds(keys, earlier, last, group);
      SumSplit(keys, last, keyOf(x));
      SumOverZero(keys - {keyOf(x)}, last);
    }
  }
}
