/**
 * Order-preserving list transforms used by every part of the model: the source's
 * `Array.prototype.filter`, `reduce` sums, `find` and a stable descending sort.
 * All of them are defined from the END of the sequence, so that a loop that walks
 * a list left to right can keep `acc == F(s[..i])` as its invariant.
 */
module Seqs {
  import opened Options

  /** The elements of `s` that satisfy `p`, in their original order. */
  function Filter<T>(s: seq<T>, p: T -> bool): (r: seq<T>)
    ensures |r| <= |s|
  {
    if s == [] then [] else
    var rest := Filter(s[..|s| - 1], p);
    if p(s[|s| - 1]) then rest + [s[|s| - 1]] else rest
  }

  /** One more element at the end: kept at the end if it passes, dropped otherwise. */
  lemma FilterSnoc<T>(s: seq<T>, x: T, p: T -> bool)
    ensures Filter(s + [x], p) == Filter(s, p) + (if p(x) then [x] else [])
  {
    assert (s + [x])[..|s|] == s;
  }

  /** Everything `filter` keeps comes from the input and passes the test. */
  lemma {:induction false} FilterSound<T>(s: seq<T>, p: T -> bool)
    ensures forall x :: x in Filter(s, p) ==> x in s && p(x)
  {
    if s != [] {
      var s', y := s[..|s| - 1], s[|s| - 1];
      FilterSound(s', p);
      assert s == s' + [y];
      FilterSnoc(s', y, p);
    }
  }

  /** Every element of the input that passes the test is kept. */
  lemma {:induction false} FilterComplete<T>(s: seq<T>, p: T -> bool)
    ensures forall x :: x in s && p(x) ==> x in Filter(s, p)
  {
    if s != [] {
      var s', y := s[..|s| - 1], s[|s| - 1];
      FilterComplete(s', p);
      assert s == s' + [y];
      FilterSnoc(s', y, p);
    }
  }

  /** Sum of `f` over the elements of `s` (a `reduce((sum, x) => sum + f(x), 0)`). */
  function SumOf<T>(s: seq<T>, f: T -> real): real {
    if s == [] then 0.0 else SumOf(s[..|s| - 1], f) + f(s[|s| - 1])
  }

  predicate Distinct<T(==)>(s: seq<T>) {
    forall i, j :: 0 <= i < j < |s| ==> s[i] != s[j]
  }

  /** The first element satisfying `p` (`Array.prototype.find`). */
  function FindFirst<T(==)>(s: seq<T>, p: T -> bool): (r: Option<T>)
    ensures r.Some? <==> exists i :: 0 <= i < |s| && p(s[i])
    ensures r.Some? ==> r.value in s && p(r.value)
    ensures r.Some? ==> exists i :: 0 <= i < |s| && s[i] == r.value && forall j :: 0 <= j < i ==> !p(s[j])
  {
    if s == [] then None
    else if p(s[0]) then Some(s[0])
    else
      var r := FindFirst(s[1..], p);
      assert forall i :: 1 <= i < |s| ==> s[i] == s[1..][i - 1];
      if r.Some? then
        var i :| 0 <= i < |s[1..]| && s[1..][i] == r.value && forall j :: 0 <= j < i ==> !p(s[1..][j]);
        assert s[i + 1] == r.value && forall j :: 0 <= j < i + 1 ==> !p(s[j]);
        r
      else r
  }

  predicate SortedDesc<T>(s: seq<T>, key: T -> real) {
    forall i, j :: 0 <= i < j < |s| ==> key(s[i]) >= key(s[j])
  }

  /** Puts `x` into the descending list `r` after every element whose key is at least `x`'s. */
  function InsertDesc<T>(x: T, r: seq<T>, key: T -> real): (q: seq<T>)
    ensures |q| == |r| + 1
  {
    if r == [] then [x]
    else if key(r[0]) >= key(x) then [r[0]] + InsertDesc(x, r[1..], key)
    else [x] + r
  }

  /** Inserting adds exactly `x` and loses nothing. */
  lemma {:induction false} InsertDescMultiset<T>(x: T, r: seq<T>, key: T -> real)
    ensures multiset(InsertDesc(x, r, key)) == multiset(r) + multiset{x}
  {
    if r != [] && key(r[0]) >= key(x) {
      InsertDescMultiset(x, r[1..], key);
      assert r == [r[0]] + r[1..];
    }
  }

  /** Inserting into a descending list keeps it descending. */
  lemma {:induction false} InsertDescSorted<T>(x: T, r: seq<T>, key: T -> real)
    requires SortedDesc(r, key)
    ensures SortedDesc(InsertDesc(x, r, key), key)
    ensures InsertDesc(x, r, key)[0] == x || (r != [] && InsertDesc(x, r, key)[0] == r[0])
  {
    if r == [] {
    } else if key(r[0]) >= key(x) {
      SortedTail(r, key);
      InsertDescSorted(x, r[1..], key);
      SortedCons(r[0], InsertDesc(x, r[1..], key), key);
    } else {
      SortedCons(x, r, key);
    }
  }

  lemma SortedTail<T>(r: seq<T>, key: T -> real)
    requires |r| > 0 && SortedDesc(r, key)
    ensures SortedDesc(r[1..], key)
    ensures |r| > 1 ==> key(r[0]) >= key(r[1])
  {
    assert forall i :: 0 <= i < |r| - 1 ==> r[1..][i] == r[i + 1];
  }

  lemma SortedCons<T>(h: T, tail: seq<T>, key: T -> real)
    requires SortedDesc(tail, key)
    requires tail != [] ==> key(h) >= key(tail[0])
    ensures SortedDesc([h] + tail, key)
  {
    var q := [h] + tail;
    forall i, j | 0 <= i < j < |q| ensures key(q[i]) >= key(q[j]) {
      if i == 0 {
        assert q[j] == tail[j - 1];
        assert key(tail[0]) >= key(tail[j - 1]) || j == 1;
      } else {
        assert q[i] == tail[i - 1] && q[j] == tail[j - 1];
      }
    }
  }

  /**
   * Stable sort, greatest key first: the source's `sort((a, b) => key(b) - key(a))`
   * (JavaScript's sort is stable, and an element is inserted after its equals).
   */
  function SortDescBy<T>(s: seq<T>, key: T -> real): (r: seq<T>)
    ensures |r| == |s|
  {
    if s == [] then []
    else InsertDesc(s[|s| - 1], SortDescBy(s[..|s| - 1], key), key)
  }

  /** The sort is a permutation of its input, and its output is descending by `key`. */
  lemma {:induction false} SortDescBySpec<T>(s: seq<T>, key: T -> real)
    ensures multiset(SortDescBy(s, key)) == multiset(s)
    ensures SortedDesc(SortDescBy(s, key), key)
  {
    if s != [] {
      var s', y := s[..|s| - 1], s[|s| - 1];
      SortDescBySpec(s', key);
      InsertDescMultiset(y, SortDescBy(s', key), key);
      InsertDescSorted(y, SortDescBy(s', key), key);
      assert s == s' + [y];
    }
  }
  /** The test "has key `v`", the class of elements a stable sort must keep in order. */
  function KeyIs<T>(key: T -> real, v: real): T -> bool {
    (x: T) => key(x) == v
  }

  /** Filtering a list with one more element at the front. */
  lemma {:induction false} FilterCons<T>(x: T, s: seq<T>, p: T -> bool)
    ensures Filter([x] + s, p) == (if p(x) then [x] else []) + Filter(s, p)
  {
    if s != [] {
      var s', y := s[..|s| - 1], s[|s| - 1];
      FilterCons(x, s', p);
      assert [x] + s == ([x] + s') + [y];
      FilterSnoc([x] + s', y, p);
      assert s == s' + [y];
      FilterSnoc(s', y, p);
    }
  }

  /** A filter that no element passes returns nothing. */
  lemma {:induction false} FilterNone<T>(s: seq<T>, p: T -> bool)
    requires forall i :: 0 <= i < |s| ==> !p(s[i])
    ensures Filter(s, p) == []
  {
    if s != [] {
      FilterNone(s[..|s| - 1], p);
    }
  }

  /** Inserting `x` puts it after every element already there with the same key. */
  lemma {:induction false} InsertDescStable<T>(x: T, r: seq<T>, key: T -> real, v: real)
    requires SortedDesc(r, key)
    ensures Filter(InsertDesc(x, r, key), KeyIs(key, v)) == Filter(r, KeyIs(key, v)) + (if key(x) == v then [x] else [])
  {
    if r == [] {
      assert InsertDesc(x, r, key) == [] + [x];
      FilterSnoc([], x, KeyIs(key, v));
    } else if key(r[0]) >= key(x) {
      SortedTail(r, key);
      InsertDescStable(x, r[1..], key, v);
      InsertDescBehind(x, r, key);
      FilterConsBoth(r[0], InsertDesc(x, r[1..], key), r[1..], if key(x) == v then [x] else [], KeyIs(key, v));
      assert r == [r[0]] + r[1..];
    } else {
      InsertInFrontStable(x, r, key, v);
    }
  }

  /** Inserting behind the head keeps the head in front. */
  lemma InsertDescBehind<T>(x: T, r: seq<T>, key: T -> real)
    requires r != [] && key(r[0]) >= key(x)
    ensures InsertDesc(x, r, key) == [r[0]] + InsertDesc(x, r[1..], key)
  {
  }

  /** The same element put in front of two lists keeps a relation between their filtered forms. */
  lemma FilterConsBoth<T>(h: T, q: seq<T>, t: seq<T>, tail: seq<T>, p: T -> bool)
    requires Filter(q, p) == Filter(t, p) + tail
    ensures Filter([h] + q, p) == Filter([h] + t, p) + tail
  {
    FilterCons(h, q, p);
    FilterCons(h, t, p);
    AppendAssoc(if p(h) then [h] else [], Filter(t, p), tail);
  }

  lemma AppendAssoc<T>(a: seq<T>, b: seq<T>, c: seq<T>)
    ensures a + (b + c) == (a + b) + c
  {
  }

  /** The step where `x` goes in front: nothing behind it has its key. */
  lemma InsertInFrontStable<T>(x: T, r: seq<T>, key: T -> real, v: real)
    requires SortedDesc(r, key)
    requires r != [] && key(r[0]) < key(x)
    ensures Filter(InsertDesc(x, r, key), KeyIs(key, v)) == Filter(r, KeyIs(key, v)) + (if key(x) == v then [x] else [])
  {
    var p := KeyIs(key, v);
    assert InsertDesc(x, r, key) == [x] + r;
    FilterCons(x, r, p);
    if key(x) == v {
      assert forall i :: 0 <= i < |r| ==> key(r[i]) <= key(r[0]);
      FilterNone(r, p);
    }
  }

  /** The sort is stable: the elements with any one key come out in their input order. */
  lemma {:induction false} SortDescByStable<T>(s: seq<T>, key: T -> real, v: real)
    ensures Filter(SortDescBy(s, key), KeyIs(key, v)) == Filter(s, KeyIs(key, v))
  {
    if s != [] {
      var s', y := s[..|s| - 1], s[|s| - 1];
      SortDescByStable(s', key, v);
      SortDescBySpec(s', key);
      InsertDescStable(y, SortDescBy(s', key), key, v);
      assert s == s' + [y];
      FilterSnoc(s', y, KeyIs(key, v));
    }
  }


  // ---------------------------------------------------------------- lemmas

  /** Filter distributes over concatenation: it keeps the relative order of what it keeps. */
  lemma {:induction false} FilterAppend<T>(a: seq<T>, b: seq<T>, p: T -> bool)
    ensures Filter(a + b, p) == Filter(a, p) + Filter(b, p)
  {
    if b != [] {
      assert (a + b)[..|a + b| - 1] == a + b[..|b| - 1];
      FilterAppend(a, b[..|b| - 1], p);
    } else {
      assert a + b == a;
    }
  }

  /** How often `filter` keeps a value: as often as the input has it when `p` holds, never otherwise. */
  lemma {:induction false} FilterCount<T>(s: seq<T>, p: T -> bool, x: T)
    ensures multiset(Filter(s, p))[x] == if p(x) then multiset(s)[x] else 0
  {
    if s != [] {
      FilterCount(s[..|s| - 1], p, x);
      assert s == s[..|s| - 1] + [s[|s| - 1]];
    }
  }

  /** A filter that every element passes returns its input. */
  lemma {:induction false} FilterKeepsAll<T>(s: seq<T>, p: T -> bool)
    requires forall x :: x in s ==> p(x)
    ensures Filter(s, p) == s
  {
    if s != [] {
      assert forall x :: x in s[..|s| - 1] ==> x in s;
      FilterKeepsAll(s[..|s| - 1], p);
    }
  }

  /** A filter and its complement split a list: every element lands in exactly one half. */
  lemma {:induction false} FilterPartition<T>(s: seq<T>, p: T -> bool, q: T -> bool)
    requires forall x :: q(x) == !p(x)
    ensures multiset(Filter(s, p)) + multiset(Filter(s, q)) == multiset(s)
  {
    if s != [] {
      var s', y := s[..|s| - 1], s[|s| - 1];
      FilterPartition(s', p, q);
      FilterSnoc(s', y, p);
      FilterSnoc(s', y, q);
      assert s == s' + [y];
    }
  }

  lemma {:induction false} SumAppend<T>(a: seq<T>, b: seq<T>, f: T -> real)
    ensures SumOf(a + b, f) == SumOf(a, f) + SumOf(b, f)
  {
    if b == [] {
      assert a + b == a;
    } else {
      assert (a + b)[..|a + b| - 1] == a + b[..|b| - 1];
      SumAppend(a, b[..|b| - 1], f);
    }
  }

  /** A sum does not depend on the order of the list it runs over. */
  lemma {:induction false} SumPermutation<T>(a: seq<T>, b: seq<T>, f: T -> real)
    requires multiset(a) == multiset(b)
    ensures SumOf(a, f) == SumOf(b, f)
    decreases |a|
  {
    if a == [] {
      assert |multiset(b)| == 0;
    } else {
      var x := a[|a| - 1];
      var a' := a[..|a| - 1];
      assert a == a' + [x];
      var i := IndexIn(b, x);
      var b' := b[..i] + b[i + 1..];
      MultisetRemoveAt(b, i);
      MultisetCancel(multiset(a'), multiset(b'), x);
      SumPermutation(a', b', f);
      SumRemoveAt(b, i, f);
      SumAppend(a', [x], f);
      assert SumOf([x], f) == f(x) by { assert [x][..0] == []; }
    }
  }

  /** A position of an element of the multiset of `b`. */
  lemma IndexIn<T>(b: seq<T>, x: T) returns (i: int)
    requires x in multiset(b)
    ensures 0 <= i < |b| && b[i] == x
  {
    assert x in b;
    i :| 0 <= i < |b| && b[i] == x;
  }

  lemma MultisetCancel<T>(m: multiset<T>, n: multiset<T>, x: T)
    requires m + multiset{x} == n + multiset{x}
    ensures m == n
  {
    assert m == (m + multiset{x}) - multiset{x};
  }

  /** Taking out the element at `i` takes one copy of it off the multiset. */
  lemma MultisetRemoveAt<T>(b: seq<T>, i: int)
    requires 0 <= i < |b|
    ensures multiset(b) == multiset(b[..i] + b[i + 1..]) + multiset{b[i]}
  {
    SplitAround(b, i);
  }

  /** A list is what comes before position `i`, the element there, and what comes after. */
  lemma SplitAround<T>(b: seq<T>, i: int)
    requires 0 <= i < |b|
    ensures b == (b[..i] + [b[i]]) + b[i + 1..]
  {
    assert b == b[..i] + b[i..];
    assert b[i..] == [b[i]] + b[i + 1..];
  }

  /** Taking out the element at `i` takes its term off the sum. */
  lemma SumRemoveAt<T>(b: seq<T>, i: int, f: T -> real)
    requires 0 <= i < |b|
    ensures SumOf(b, f) == SumOf(b[..i] + b[i + 1..], f) + f(b[i])
  {
    var l, x, r := b[..i], b[i], b[i + 1..];
    calc {
      SumOf(b, f);
      { SplitAround(b, i); }
      SumOf((l + [x]) + r, f);
      { SumAppend(l + [x], r, f); }
      SumOf(l + [x], f) + SumOf(r, f);
      { SumAppend(l, [x], f); SumSingle(x, f); }
      SumOf(l, f) + f(x) + SumOf(r, f);
      { SumAppend(l, r, f); }
      SumOf(l + r, f) + f(x);
    }
  }

  /** Sum over the elements that satisfy `p`, plus sum over the rest, is the whole sum. */
  lemma {:induction false} SumSplit<T>(s: seq<T>, f: T -> real, p: T -> bool, q: T -> bool)
    requires forall x :: q(x) == !p(x)
    ensures SumOf(Filter(s, p), f) + SumOf(Filter(s, q), f) == SumOf(s, f)
  {
    if s != [] {
      var s' := s[..|s| - 1];
      var x := s[|s| - 1];
      SumSplit(s', f, p, q);
      if p(x) {
        SumAppend(Filter(s', p), [x], f);
      } else {
        SumAppend(Filter(s', q), [x], f);
      }
      assert SumOf([x], f) == f(x) by { assert [x][..0] == []; }
    }
  }

  /** A sum of non-negative terms is non-negative. */
  lemma {:induction false} SumNonNegative<T>(s: seq<T>, f: T -> real)
    requires forall x :: x in s ==> f(x) >= 0.0
    ensures SumOf(s, f) >= 0.0
  {
    if s != [] {
      assert forall x :: x in s[..|s| - 1] ==> x in s;
      SumNonNegative(s[..|s| - 1], f);
    }
  }

  /** No two elements share the key `f`. */
  predicate DistinctBy<T, K(==)>(s: seq<T>, f: T -> K) {
    forall i, j :: 0 <= i < j < |s| ==> f(s[i]) != f(s[j])
  }

  /** Distinctness of a projection survives any permutation of the list. */
  lemma DistinctByPermutation<T, K>(a: seq<T>, b: seq<T>, f: T -> K)
    requires multiset(a) == multiset(b)
    requires DistinctBy(a, f)
    ensures DistinctBy(b, f)
  {
    forall i, j | 0 <= i < j < |b| ensures f(b[i]) != f(b[j]) {
      if f(b[i]) == f(b[j]) {
        assert b[i] in multiset(a) && b[j] in multiset(a);
        var p :| 0 <= p < |a| && a[p] == b[i];
        var q :| 0 <= q < |a| && a[q] == b[j];
        if b[i] == b[j] {
          TwoPositions(b, i, j);
          TwoOccurrences(a, b[i]);
        }
        assert false;
      }
    }
  }

  lemma TwoPositions<T>(s: seq<T>, i: int, j: int)
    requires 0 <= i < j < |s| && s[i] == s[j]
    ensures multiset(s)[s[i]] >= 2
  {
    assert s == s[..i] + [s[i]] + s[i + 1..j] + [s[j]] + s[j + 1..];
  }

  /** A value that a list holds twice sits at two different positions. */
  lemma {:induction false} TwoOccurrences<T>(s: seq<T>, x: T)
    requires multiset(s)[x] >= 2
    ensures exists i, j :: 0 <= i < j < |s| && s[i] == x && s[j] == x
  {
    var s' := s[..|s| - 1];
    assert s == s' + [s[|s| - 1]];
    if s[|s| - 1] == x {
      assert x in multiset(s');
      var i :| 0 <= i < |s'| && s'[i] == x;
      assert s[i] == x && s[|s| - 1] == x;
    } else {
      TwoOccurrences(s', x);
      var i, j :| 0 <= i < j < |s'| && s'[i] == x && s'[j] == x;
      assert s[i] == x && s[j] == x;
    }
  }

  /** `f` where `p` holds, 0 elsewhere. */
  function Masked<T>(f: T -> real, p: T -> bool): T -> real {
    x => if p(x) then f(x) else 0.0
  }

  lemma SumSingle<T>(x: T, f: T -> real)
    ensures SumOf([x], f) == f(x)
  {
    assert [x][..0] == [];
  }

  /** Summing over the elements that pass a filter is summing a masked term over all of them. */
  lemma {:induction false} SumFilter<T>(s: seq<T>, f: T -> real, p: T -> bool)
    ensures SumOf(Filter(s, p), f) == SumOf(s, Masked(f, p))
  {
    if s != [] {
      var s', y := s[..|s| - 1], s[|s| - 1];
      SumFilter(s', f, p);
      FilterSnoc(s', y, p);
      assert s == s' + [y];
      if p(y) {
        SumAppend(Filter(s', p), [y], f);
        SumSingle(y, f);
      }
    }
  }

  /** A sum of terms each at most the matching term of another sum is at most that sum. */
  lemma {:induction false} SumMonotone<T>(s: seq<T>, f: T -> real, g: T -> real)
    requires forall x :: x in s ==> f(x) <= g(x)
    ensures SumOf(s, f) <= SumOf(s, g)
  {
    if s != [] {
      assert forall x :: x in s[..|s| - 1] ==> x in s;
      SumMonotone(s[..|s| - 1], f, g);
    }
  }

  /** The first n elements of a descending list: descending, and no element left out ranks above them. */
  lemma SortedTake<T>(s: seq<T>, n: nat, key: T -> real)
    requires n <= |s| && SortedDesc(s, key)
    ensures SortedDesc(s[..n], key)
    ensures multiset(s[..n]) <= multiset(s)
    ensures forall x, y :: x in s[..n] && y in multiset(s) - multiset(s[..n]) ==> key(x) >= key(y)
  {
    var a, b := s[..n], s[n..];
    assert s == a + b;
    SortedSplit(a, b, key);
    assert multiset(s) - multiset(a) == multiset(b);
  }

  /** A descending list cut in two: the front is descending and no key behind the cut exceeds one before it. */
  lemma SortedSplit<T>(a: seq<T>, b: seq<T>, key: T -> real)
    requires SortedDesc(a + b, key)
    ensures SortedDesc(a, key)
    ensures forall x, y :: x in a && y in b ==> key(x) >= key(y)
  {
    forall x, y | x in a && y in b
      ensures key(x) >= key(y)
    {
      var i :| 0 <= i < |a| && a[i] == x;
      var j :| 0 <= j < |b| && b[j] == y;
      assert (a + b)[i] == x && (a + b)[|a| + j] == y;
    }
    forall i, j | 0 <= i < j < |a|
      ensures key(a[i]) >= key(a[j])
    {
      assert (a + b)[i] == a[i] && (a + b)[j] == a[j];
    }
  }
}
