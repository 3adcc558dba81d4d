/** Python lists and dictionaries as the core uses them. */
module Lists {

  /** No element occurs twice. */
  predicate Distinct<T(==)>(s: seq<T>) {
    forall i, j :: 0 <= i < j < |s| ==> s[i] != s[j]
  }

  function Elements<T>(s: seq<T>): set<T> {
    set x | x in s
  }

  lemma {:induction false} DistinctCard<T>(s: seq<T>)
    requires Distinct(s)
    ensures |Elements(s)| == |s|
  {
    if s != [] {
      DistinctCard(s[1..]);
      assert Elements(s) == {s[0]} + Elements(s[1..]);
      assert s[0] !in Elements(s[1..]);
    }
  }

  /** `list(some_set)`: every element once, in an order Python leaves unspecified, which is
      why the order here is an arbitrary choice. */
  method SetToSeq<T(==)>(s: set<T>) returns (r: seq<T>)
    ensures Distinct(r) && Elements(r) == s
  {
    r := [];
    var rest := s;
    while rest != {}
      invariant rest !! Elements(r) && rest + Elements(r) == s
      invariant Distinct(r)
      decreases rest
    {
      var x :| x in rest;
      r := r + [x];
      rest := rest - {x};
    }
  }

  /** `[x for x in s if x in other]`. */
  function KeepIn<T(==)>(s: seq<T>, other: seq<T>): (r: seq<T>)
    ensures |r| <= |s|
    ensures Elements(r) == Elements(s) * Elements(other)
    ensures Distinct(s) ==> Distinct(r)
  {
    if s == [] then []
    else
      var tail := KeepIn(s[1..], other);
      assert Elements(s) == {s[0]} + Elements(s[1..]);
      assert Elements([s[0]] + tail) == {s[0]} + Elements(tail);
      assert Distinct(s) ==> s[0] !in Elements(s[1..]);
      if s[0] in other then [s[0]] + tail else tail
  }

  /** `[x for x in s if x not in other]`. */
  function KeepNotIn<T(==)>(s: seq<T>, other: seq<T>): (r: seq<T>)
    ensures |r| <= |s|
    ensures Elements(r) == Elements(s) - Elements(other)
    ensures Distinct(s) ==> Distinct(r)
  {
    if s == [] then []
    else
      var tail := KeepNotIn(s[1..], other);
      assert Elements(s) == {s[0]} + Elements(s[1..]);
      assert Elements([s[0]] + tail) == {s[0]} + Elements(tail);
      assert Distinct(s) ==> s[0] !in Elements(s[1..]);
      if s[0] !in other then [s[0]] + tail else tail
  }

  /** The two comprehensions split a list: every element lands in exactly one of them. */
  lemma {:induction false} KeepSplits<T>(s: seq<T>, other: seq<T>)
    ensures |KeepIn(s, other)| + |KeepNotIn(s, other)| == |s|
  {
    if s != [] {
      KeepSplits(s[1..], other);
    }
  }
}

/** A Python `dict` read with `d.get(k)` and written with `d[k] = v`. The insertion order of
    its keys is not modelled: nothing here depends on it. */
module Dicts {
  import opened Wrappers

  /** `d.get(k)`. */
  function Get<K, V>(d: map<K, V>, k: K): (r: Option<V>)
    ensures r.Some? <==> k in d
    ensures r.Some? ==> r.value == d[k]
  {
    if k in d then Some(d[k]) else None
  }

  /** The sum of the values under `keys`, in no particular order. */
  ghost function SumOver<K>(m: map<K, nat>, keys: set<K>): nat
    requires keys <= m.Keys
    decreases keys
  {
    if keys == {} then 0
    else
      var k :| k in keys;
      m[k] + SumOver(m, keys - {k})
  }

  /** The sum of all values of a dictionary. */
  ghost function SumValues<K>(m: map<K, nat>): nat {
    SumOver(m, m.Keys)
  }

  /** Any key may be taken out first. */
  lemma {:induction false} SumOverRemove<K>(m: map<K, nat>, keys: set<K>, k: K)
    requires keys <= m.Keys && k in keys
    ensures SumOver(m, keys) == m[k] + SumOver(m, keys - {k})
    decreases keys
  {
    var j :| j in keys && SumOver(m, keys) == m[j] + SumOver(m, keys - {j});
    if j != k {
      SumOverRemove(m, keys - {j}, k);
      SumOverRemove(m, keys - {k}, j);
      assert keys - {j} - {k} == keys - {k} - {j};
    }
  }

  /** The sum reads only the values under `keys`. */
  lemma {:induction false} SumOverSame<K>(m1: map<K, nat>, m2: map<K, nat>, keys: set<K>)
    requires keys <= m1.Keys && keys <= m2.Keys
    requires forall k :: k in keys ==> m1[k] == m2[k]
    ensures SumOver(m1, keys) == SumOver(m2, keys)
    decreases keys
  {
    if keys != {} {
      var k :| k in keys && SumOver(m1, keys) == m1[k] + SumOver(m1, keys - {k});
      SumOverSame(m1, m2, keys - {k});
      SumOverRemove(m2, keys, k);
    }
  }

  /** `d[k] = v` replaces the old value of `k`, or 0 when `k` is new, in the sum. */
  lemma SumValuesUpdate<K>(m: map<K, nat>, k: K, v: nat)
    ensures SumValues(m[k := v]) == SumValues(m) - Get(m, k).GetOr(0) + v
  {
    var m' := m[k := v];
    SumOverRemove(m', m'.Keys, k);
    SumOverSame(m', m, m'.Keys - {k});
    if k in m {
      SumOverRemove(m, m.Keys, k);
      assert m'.Keys - {k} == m.Keys - {k};
    } else {
      assert m'.Keys - {k} == m.Keys;
    }
  }
}
