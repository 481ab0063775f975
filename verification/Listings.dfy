/** Arrays of records and the maps they restore to: what a snapshot lists and what a restoring loop rebuilds. */
module Listings {
  import opened Wrappers

  predicate DistinctKeys<K(==), V>(xs: seq<V>, key: V -> K) {
    forall i, j :: 0 <= i < j < |xs| ==> key(xs[i]) != key(xs[j])
  }

  /** The map an array of records restores to. */
  function Index<K, V>(xs: seq<V>, key: V -> K): map<K, V> {
    if xs == [] then map[] else Index(xs[..|xs| - 1], key)[key(xs[|xs| - 1]) := xs[|xs| - 1]]
  }

  /** The array lists the map's values, each once. */
  ghost predicate Lists<K, V>(xs: seq<V>, m: map<K, V>, key: V -> K) {
    && DistinctKeys(xs, key)
    && (forall i :: 0 <= i < |xs| ==> key(xs[i]) in m && m[key(xs[i])] == xs[i])
    && (forall k <- m :: m[k] in xs && key(m[k]) == k)
  }

  lemma {:induction false} IndexMembers<K, V>(xs: seq<V>, key: V -> K)
    requires DistinctKeys(xs, key)
    ensures forall i :: 0 <= i < |xs| ==> key(xs[i]) in Index(xs, key) && Index(xs, key)[key(xs[i])] == xs[i]
    ensures forall k <- Index(xs, key) :: Index(xs, key)[k] in xs && key(Index(xs, key)[k]) == k
  {
    if xs != [] {
      IndexMembers(xs[..|xs| - 1], key);
    }
  }

  lemma ListsIsIndex<K, V>(xs: seq<V>, m: map<K, V>, key: V -> K)
    requires Lists(xs, m, key)
    ensures Index(xs, key) == m
  {
    IndexMembers(xs, key);
  }

  /** Records with distinct keys are listed by the map they restore to. */
  lemma IndexLists<K, V>(xs: seq<V>, key: V -> K)
    ensures Lists(xs, Index(xs, key), key) <==> DistinctKeys(xs, key)
  {
    if DistinctKeys(xs, key) { IndexMembers(xs, key); }
  }

  /** The elements of a set in some order: a Map's own order is not modelled. */
  method Enumerate<K(==)>(ids: set<K>) returns (xs: seq<K>)
    ensures forall x :: x in xs <==> x in ids
    ensures forall i, j :: 0 <= i < j < |xs| ==> xs[i] != xs[j]
  {
    xs := [];
    var rest := ids;
    while rest != {}
      invariant rest <= ids
      invariant forall x :: x in xs <==> x in ids - rest
      invariant forall i, j :: 0 <= i < j < |xs| ==> xs[i] != xs[j]
      decreases rest
    {
      var x :| x in rest;
      ghost var before := xs;
      xs, rest := xs + [x], rest - {x};
      assert forall i :: 0 <= i < |before| ==> xs[i] == before[i] && before[i] in before;
    }
  }

  method Values<K(==), V>(m: map<K, V>, key: V -> K) returns (xs: seq<V>)
    requires forall k <- m :: key(m[k]) == k
    ensures Lists(xs, m, key)
  {
    var ids := Enumerate(m.Keys);
    xs := seq(|ids|, i requires 0 <= i < |ids| => m[ids[i]]);
    forall k | k in m ensures m[k] in xs {
      var i :| 0 <= i < |ids| && ids[i] == k;
      assert xs[i] == m[k];
    }
  }

  lemma IndexNothing<K, V>(key: V -> K)
    ensures Index([], key) == map[] && DistinctKeys([], key)
  {
  }

  lemma IndexSnoc<K, V>(xs: seq<V>, i: nat, key: V -> K)
    requires i < |xs|
    ensures Index(xs[..i + 1], key) == Index(xs[..i], key)[key(xs[i]) := xs[i]]
  {
    assert xs[..i + 1][..i] == xs[..i];
  }

  /** Extending an array by an element whose key is new. */
  lemma DistinctSnoc<K, V>(xs: seq<V>, i: nat, key: V -> K)
    requires i < |xs| && DistinctKeys(xs[..i], key)
    ensures DistinctKeys(xs[..i + 1], key) <==> key(xs[i]) !in Index(xs[..i], key)
  {
    IndexMembers(xs[..i], key);
    assert forall j :: 0 <= j < i ==> xs[..i + 1][j] == xs[..i][j];
    if key(xs[i]) in Index(xs[..i], key) {
      var j :| 0 <= j < i && xs[..i][j] == Index(xs[..i], key)[key(xs[i])];
      assert key(xs[..i + 1][j]) == key(xs[..i + 1][i]);
    }
  }

  lemma DistinctPrefix<K, V>(xs: seq<V>, i: nat, key: V -> K)
    requires i <= |xs|
    ensures DistinctKeys(xs, key) ==> DistinctKeys(xs[..i], key)
  {
  }

  /** One restoring loop: every element checked, no key twice. */
  method RestoreUnique<K(==), V(==)>(xs: seq<V>, key: V -> K, check: V -> bool) returns (r: Option<map<K, V>>)
    ensures r == if DistinctKeys(xs, key) && (forall x <- xs :: check(x)) then Some(Index(xs, key)) else None
  {
    var m: map<K, V> := map[];
    var i := 0;
    while i < |xs|
      invariant 0 <= i <= |xs|
      invariant DistinctKeys(xs[..i], key) && (forall x <- xs[..i] :: check(x))
      invariant m == Index(xs[..i], key)
    {
      hide DistinctKeys, Index;
      IndexSnoc(xs, i, key);
      DistinctSnoc(xs, i, key);
      if !check(xs[i]) { return None; }
      DistinctPrefix(xs, i + 1, key);
      if key(xs[i]) in m {
        return None;
      }
      m := m[key(xs[i]) := xs[i]];
      i := i + 1;
    }
    assert xs[..i] == xs;
    return Some(m);
  }
}
