/**
 * A JavaScript `Map` (or a string-keyed object used as a record): key/value entries
 * kept in insertion order, a key never appearing twice.
 */
module OrderedMaps {
  import opened Options
  import opened Seqs

  function Keys<K, V>(m: seq<(K, V)>): (ks: seq<K>)
    ensures |ks| == |m|
    ensures forall i :: 0 <= i < |m| ==> ks[i] == m[i].0
  {
    seq(|m|, i requires 0 <= i < |m| => m[i].0)
  }

  /** `map.get(k)`: the value stored under `k`, if any (see `GetNone` and `GetAt`). */
  function Get<K(==), V>(m: seq<(K, V)>, k: K): Option<V> {
    if m == [] then None
    else if m[|m| - 1].0 == k then Some(m[|m| - 1].1)
    else Get(m[..|m| - 1], k)
  }

  /** `get` on a map with one more entry at the end. */
  lemma GetSnoc<K, V>(m: seq<(K, V)>, e: (K, V), k: K)
    ensures Get(m + [e], k) == if e.0 == k then Some(e.1) else Get(m, k)
  {
    assert (m + [e])[..|m|] == m;
  }

  /** `get` finds nothing exactly for the keys the map does not hold. */
  lemma {:induction false} GetNone<K, V>(m: seq<(K, V)>, k: K)
    ensures Get(m, k).None? <==> k !in Keys(m)
  {
    if m != [] {
      var m' := m[..|m| - 1];
      GetNone(m', k);
      assert Keys(m) == Keys(m') + [m[|m| - 1].0];
    }
  }

  /** In a map without repeated keys, the entry at position i is what `get` finds for its key. */
  lemma {:induction false} GetAt<K, V>(m: seq<(K, V)>, i: int)
    requires Distinct(Keys(m)) && 0 <= i < |m|
    ensures Get(m, m[i].0) == Some(m[i].1)
  {
    var m' := m[..|m| - 1];
    if i < |m| - 1 {
      assert Keys(m)[i] != Keys(m)[|m| - 1];
      assert Keys(m') == Keys(m)[..|m| - 1];
      GetAt(m', i);
    }
  }

  /** `map.set(k, v)`: overwrite the entry of `k` in place, or append a new last entry. */
  function Set<K(==), V>(m: seq<(K, V)>, k: K, v: V): (r: seq<(K, V)>)
    ensures k in Keys(m) ==> |r| == |m|
    ensures k !in Keys(m) ==> r == m + [(k, v)]
    ensures forall i :: 0 <= i < |m| ==> r[i] == if m[i].0 == k then (k, v) else m[i]
  {
    if k in Keys(m) then seq(|m|, i requires 0 <= i < |m| => if m[i].0 == k then (k, v) else m[i])
    else m + [(k, v)]
  }

  lemma SetKeepsKeysDistinct<K, V>(m: seq<(K, V)>, k: K, v: V)
    requires Distinct(Keys(m))
    ensures Distinct(Keys(Set(m, k, v)))
    ensures Keys(Set(m, k, v)) == if k in Keys(m) then Keys(m) else Keys(m) + [k]
  {
  }

  /** In a map without repeated keys, `set` then `get` reads the new value back and leaves other keys alone. */
  lemma GetSet<K, V>(m: seq<(K, V)>, k: K, v: V, q: K)
    requires Distinct(Keys(m))
    ensures Get(Set(m, k, v), q) == if q == k then Some(v) else Get(m, q)
  {
    var r := Set(m, k, v);
    SetKeepsKeysDistinct(m, k, v);
    if q == k {
      if k in Keys(m) {
        var i :| 0 <= i < |m| && Keys(m)[i] == k;
        assert r[i] == (k, v);
        GetAt(r, i);
      } else {
        assert r[|m|] == (k, v);
        GetAt(r, |m|);
      }
    } else if q in Keys(m) {
      var i :| 0 <= i < |m| && Keys(m)[i] == q;
      assert r[i] == m[i];
      GetAt(r, i);
      GetAt(m, i);
    } else {
      GetNone(m, q);
      GetNone(r, q);
    }
  }

  /** Two `set`s of one key: the second wins. */
  lemma SetSet<K, V>(m: seq<(K, V)>, k: K, v1: V, v2: V)
    ensures Set(Set(m, k, v1), k, v2) == Set(m, k, v2)
  {
    var r1 := Set(m, k, v1);
    assert k in Keys(r1) by {
      if k in Keys(m) {
        var i :| 0 <= i < |m| && Keys(m)[i] == k;
        assert Keys(r1)[i] == k;
      } else {
        assert Keys(r1)[|m|] == k;
      }
    }
  }

  /** The number stored in an entry of a map to numbers. */
  function EntryValue<K>(e: (K, real)): real { e.1 }

  /** `set` changes the sum of a map's numbers by the new value minus the old one (0 when absent). */
  lemma {:induction false} SumSet<K>(m: seq<(K, real)>, k: K, v: real)
    requires Distinct(Keys(m))
    ensures SumOf(Set(m, k, v), EntryValue) == SumOf(m, EntryValue) - Get(m, k).GetOr(0.0) + v
  {
    if k !in Keys(m) {
      GetNone(m, k);
      SumAppend(m, [(k, v)], EntryValue);
      SumSingle((k, v), EntryValue);
    } else {
      var m', e := m[..|m| - 1], m[|m| - 1];
      assert m == m' + [e];
      assert Keys(m) == Keys(m') + [e.0];
      GetSnoc(m', e, k);
      if e.0 == k {
        assert k !in Keys(m');
        assert Set(m, k, v) == m' + [(k, v)];
      } else {
        assert Distinct(Keys(m'));
        SumSet(m', k, v);
        assert Set(m, k, v) == Set(m', k, v) + [e];
        assert (Set(m', k, v) + [e])[..|m'|] == Set(m', k, v);
      }
    }
  }

  /** `map.set(k, (map.get(k) || 0) + a)`: add `a` to the number kept under `k`. */
  function AddTo<K(==)>(m: seq<(K, real)>, k: K, a: real): seq<(K, real)> {
    Set(m, k, Get(m, k).GetOr(0.0) + a)
  }

  /** What `get` finds is an entry of the map. */
  lemma {:induction false} GetIn<K, V>(m: seq<(K, V)>, k: K)
    requires Get(m, k).Some?
    ensures (k, Get(m, k).value) in m
  {
    if m[|m| - 1].0 != k {
      GetIn(m[..|m| - 1], k);
    }
  }

  /** Adding a non-negative amount to a map of non-negative numbers keeps every number non-negative. */
  lemma AddToNonNegative<K>(m: seq<(K, real)>, k: K, a: real)
    requires a >= 0.0 && forall x :: x in m ==> x.1 >= 0.0
    ensures forall x :: x in AddTo(m, k, a) ==> x.1 >= 0.0
  {
    if Get(m, k).Some? {
      GetIn(m, k);
    }
  }

  /** Adding keeps the keys distinct and brings in `k` if it was missing. */
  lemma AddToKeys<K>(m: seq<(K, real)>, k: K, a: real)
    requires Distinct(Keys(m))
    ensures Distinct(Keys(AddTo(m, k, a)))
    ensures forall q :: q in Keys(AddTo(m, k, a)) <==> q in Keys(m) || q == k
  {
    SetKeepsKeysDistinct(m, k, Get(m, k).GetOr(0.0) + a);
  }

  /** After adding, `k` holds its old number (0 when absent) plus `a`, and nothing else changes. */
  lemma AddToGet<K>(m: seq<(K, real)>, k: K, a: real, q: K)
    requires Distinct(Keys(m))
    ensures Get(AddTo(m, k, a), q) == if q == k then Some(Get(m, k).GetOr(0.0) + a) else Get(m, q)
  {
    var v := Get(m, k).GetOr(0.0) + a;
    AddToIsSet(m, k, a);
    if q == k {
      GetSet(m, k, v, k);
    } else {
      GetSet(m, k, v, q);
    }
  }

  lemma AddToIsSet<K>(m: seq<(K, real)>, k: K, a: real)
    ensures AddTo(m, k, a) == Set(m, k, Get(m, k).GetOr(0.0) + a)
  {
  }

  /** Adding `a` under any key adds `a` to the sum of the numbers. */
  lemma AddToSum<K>(m: seq<(K, real)>, k: K, a: real)
    requires Distinct(Keys(m))
    ensures SumOf(AddTo(m, k, a), EntryValue) == SumOf(m, EntryValue) + a
  {
    var g := Get(m, k).GetOr(0.0);
    SumSet(m, k, g + a);
  }

  /** `if (!m[k]) m[k] = []; m[k].push(x)`: append `x` to the list kept under `k`, starting the list if needed. */
  function PushTo<K(==), V>(m: seq<(K, seq<V>)>, k: K, x: V): seq<(K, seq<V>)> {
    Set(m, k, Get(m, k).GetOr([]) + [x])
  }

  /** Pushing keeps the keys distinct and brings in `k` if it was missing. */
  lemma PushToKeys<K, V>(m: seq<(K, seq<V>)>, k: K, x: V)
    requires Distinct(Keys(m))
    ensures Distinct(Keys(PushTo(m, k, x)))
    ensures forall q :: q in Keys(PushTo(m, k, x)) <==> q in Keys(m) || q == k
  {
    SetKeepsKeysDistinct(m, k, Get(m, k).GetOr([]) + [x]);
  }

  /** After pushing, the list under `k` has `x` at its end, and nothing else changes. */
  lemma PushToGet<K, V>(m: seq<(K, seq<V>)>, k: K, x: V, q: K)
    requires Distinct(Keys(m))
    ensures Get(PushTo(m, k, x), q) == if q == k then Some(Get(m, k).GetOr([]) + [x]) else Get(m, q)
  {
    GetSet(m, k, Get(m, k).GetOr([]) + [x], q);
  }

  /** Starting a missing list and then pushing onto it is one push. */
  lemma PushToMissing<K, V>(m: seq<(K, seq<V>)>, k: K, x: V)
    requires Distinct(Keys(m)) && Get(m, k).None?
    ensures Get(Set(m, k, []), k) == Some([])
    ensures Set(Set(m, k, []), k, [] + [x]) == PushTo(m, k, x)
  {
    GetSet(m, k, [], k);
    SetSet(m, k, [], [x]);
    assert [] + [x] == [x];
  }
}
