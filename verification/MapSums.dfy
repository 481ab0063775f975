/** Sums of an integer measure over the values of a map, and how one update changes them. */
module MapSums {

  ghost function Sum<K(!new), V>(m: map<K, V>, f: V -> int): int
    decreases |m|
  {
    if m == map[] then 0
    else
      var k :| k in m;
      f(m[k]) + Sum(m - {k}, f)
  }

  lemma {:induction false} SumRemove<K(!new), V>(m: map<K, V>, f: V -> int, k: K)
    requires k in m
    ensures Sum(m, f) == f(m[k]) + Sum(m - {k}, f)
    decreases |m|
  {
    var p :| p in m && Sum(m, f) == f(m[p]) + Sum(m - {p}, f);
    if p != k {
      SumRemove(m - {p}, f, k);
      SumRemove(m - {k}, f, p);
      assert m - {p} - {k} == m - {k} - {p};
    }
  }

  /** Setting one key replaces that key's contribution. */
  lemma SumUpdate<K(!new), V>(m: map<K, V>, f: V -> int, k: K, v: V)
    ensures Sum(m[k := v], f) == Sum(m, f) - (if k in m then f(m[k]) else 0) + f(v)
  {
    SumRemove(m[k := v], f, k);
    assert m[k := v] - {k} == m - {k};
    if k in m {
      SumRemove(m, f, k);
    } else {
      assert m - {k} == m;
    }
  }

  lemma {:induction false} SumNonNegative<K(!new), V>(m: map<K, V>, f: V -> int)
    requires forall k <- m :: f(m[k]) >= 0
    ensures Sum(m, f) >= 0
    decreases |m|
  {
    if m != map[] {
      var k :| k in m && Sum(m, f) == f(m[k]) + Sum(m - {k}, f);
      SumNonNegative(m - {k}, f);
    }
  }

  /** A non-negative measure sums to at least each contribution. */
  lemma SumCovers<K(!new), V>(m: map<K, V>, f: V -> int, k: K)
    requires forall i <- m :: f(m[i]) >= 0
    requires k in m
    ensures f(m[k]) <= Sum(m, f)
  {
    SumRemove(m, f, k);
    SumNonNegative(m - {k}, f);
  }

  /** Two maps over the same keys whose values measure alike have the same sum. */
  lemma {:induction false} SumCongruent<K(!new), V>(m: map<K, V>, n: map<K, V>, f: V -> int)
    requires m.Keys == n.Keys
    requires forall k <- m :: f(m[k]) == f(n[k])
    ensures Sum(m, f) == Sum(n, f)
    decreases |m|
  {
    if m == map[] {
      assert n == map[];
    } else {
      var k :| k in m && Sum(m, f) == f(m[k]) + Sum(m - {k}, f);
      SumRemove(n, f, k);
      SumCongruent(m - {k}, n - {k}, f);
    }
  }

  /** Splitting the keys splits the sum. */
  lemma {:induction false} SumSplit<K(!new), V>(m: map<K, V>, part: set<K>, f: V -> int)
    requires part <= m.Keys
    ensures Sum(m, f) == Sum(m - part, f) + Sum(m - (m.Keys - part), f)
    decreases part
  {
    if part == {} {
      assert m - part == m && m - (m.Keys - part) == map[];
    } else {
      var k :| k in part;
      SumSplit(m, part - {k}, f);
      var out, inn := m - (part - {k}), m - (m.Keys - part);
      SumRemove(out, f, k);
      SumRemove(inn, f, k);
      assert out - {k} == m - part;
      assert inn - {k} == m - (m.Keys - (part - {k}));
    }
  }
}
