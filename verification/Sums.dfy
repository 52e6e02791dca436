/** Finite sums of reals over sequences and maps. */
module Sums {

  function Sum<T>(xs: seq<T>, f: T -> real): real {
    if xs == [] then 0.0 else Sum(xs[..|xs| - 1], f) + f(xs[|xs| - 1])
  }

  function Self(): real -> real {
    x => x
  }

  lemma {:induction false} SumConcat<T>(xs: seq<T>, ys: seq<T>, f: T -> real)
    ensures Sum(xs + ys, f) == Sum(xs, f) + Sum(ys, f)
    decreases |ys|
  {
    if ys == [] {
      assert xs + ys == xs;
    } else {
      var init := ys[..|ys| - 1];
      SumConcat(xs, init, f);
      assert (xs + ys)[..|xs + ys| - 1] == xs + init;
    }
  }

  lemma SumSingle<T>(x: T, f: T -> real)
    ensures Sum([x], f) == f(x)
  {
    assert [x][..0] == [];
  }

  lemma SumWithout<T>(ys: seq<T>, i: nat, f: T -> real)
    requires i < |ys|
    ensures Sum(ys, f) == Sum(ys[..i] + ys[i + 1..], f) + f(ys[i])
  {
    hide Sum;
    var left, right := ys[..i], ys[i + 1..];
    assert ys == left + ([ys[i]] + right);
    SumConcat(left, [ys[i]] + right, f);
    SumConcat([ys[i]], right, f);
    SumConcat(left, right, f);
    SumSingle(ys[i], f);
  }

  lemma MultisetWithout<T>(ys: seq<T>, i: nat)
    requires i < |ys|
    ensures multiset(ys[..i] + ys[i + 1..]) == multiset(ys) - multiset{ys[i]}
  {
    assert ys == ys[..i] + ([ys[i]] + ys[i + 1..]);
    assert multiset(ys) == multiset(ys[..i]) + (multiset{ys[i]} + multiset(ys[i + 1..]));
  }

  /** A sum does not depend on the order of its terms. */
  lemma {:induction false} SumPermutation<T>(xs: seq<T>, ys: seq<T>, f: T -> real)
    requires multiset(xs) == multiset(ys)
    ensures Sum(xs, f) == Sum(ys, f)
    decreases |xs|
  {
    assert |xs| == |multiset(xs)| == |multiset(ys)| == |ys|;
    if xs != [] {
      var n := |xs| - 1;
      assert xs[n] in multiset(ys);
      var i :| 0 <= i < |ys| && ys[i] == xs[n];
      MultisetWithout(xs, n);
      MultisetWithout(ys, i);
      assert xs[..n] + xs[n + 1..] == xs[..n];
      SumPermutation(xs[..n], ys[..i] + ys[i + 1..], f);
      SumWithout(ys, i, f);
    }
  }

  ghost function Pick<K, V>(m: map<K, V>): (k: K)
    requires m != map[]
    ensures k in m
  {
    var k :| k in m; k
  }

  /** The sum of the weights of the entries of a map. */
  ghost function SumMap<K, V>(m: map<K, V>, weight: (K, V) -> real): real
    decreases |m|
  {
    if m == map[] then 0.0
    else
      var k := Pick(m);
      weight(k, m[k]) + SumMap(m - {k}, weight)
  }

  lemma {:induction false} SumMapRemove<K, V>(m: map<K, V>, weight: (K, V) -> real, k: K)
    requires k in m
    ensures SumMap(m, weight) == weight(k, m[k]) + SumMap(m - {k}, weight)
    decreases |m|
  {
    var p := Pick(m);
    if p != k {
      SumMapRemove(m - {p}, weight, k);
      SumMapRemove(m - {k}, weight, p);
      assert m - {p} - {k} == m - {k} - {p};
    }
  }

  /** Writing one entry changes a sum by that entry's new weight less its old one. */
  lemma SumMapUpdate<K, V>(m: map<K, V>, weight: (K, V) -> real, k: K, v: V)
    ensures SumMap(m[k := v], weight) ==
            SumMap(m, weight) + weight(k, v) - (if k in m then weight(k, m[k]) else 0.0)
  {
    SumMapRemove(m[k := v], weight, k);
    if k in m {
      SumMapRemove(m, weight, k);
      assert m[k := v] - {k} == m - {k};
    } else {
      assert m[k := v] - {k} == m;
    }
  }
}
