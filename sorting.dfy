/**
 * `Array.prototype.sort` with a numeric comparator `(a, b) => key(a) - key(b)`.
 * The engine's sort is stable, and a stable sort by a key has exactly one result,
 * so the model pins that result with a stable insertion sort (`SortBy`), proves it
 * sorted, a permutation and stable, and proves the in-place array version equal to it.
 */
module Sorting {
  import opened Collections

  /** Non-decreasing by `key`. */
  predicate SortedBy<T>(s: seq<T>, key: T -> int)
  {
    forall i, j :: 0 <= i < j < |s| ==> key(s[i]) <= key(s[j])
  }

  /** The elements whose key is `k`. */
  function HasKey<T>(key: T -> int, k: int): T -> bool
  {
    (y: T) => key(y) == k
  }

  /** Insert `x` into `t` just after the last element whose key is at most key(x). */
  function Insert<T>(t: seq<T>, x: T, key: T -> int): (r: seq<T>)
    ensures |r| == |t| + 1
    decreases |t|
  {
    if t == [] || key(t[|t| - 1]) <= key(x) then t + [x]
    else Insert(t[..|t| - 1], x, key) + [t[|t| - 1]]
  }

  /** Insertion sort from left to right: the stable sort of `s` by `key`. */
  function SortBy<T>(s: seq<T>, key: T -> int): (r: seq<T>)
    ensures |r| == |s|
  {
    if s == [] then []
    else Insert(SortBy(s[..|s| - 1], key), s[|s| - 1], key)
  }

  /** Inserting adds exactly `x` to the multiset of elements. */
  lemma {:induction false} InsertPermutes<T>(t: seq<T>, x: T, key: T -> int)
    ensures multiset(Insert(t, x, key)) == multiset(t) + multiset{x}
    decreases |t|
  {
    if t != [] && key(t[|t| - 1]) > key(x) {
      var init, last := t[..|t| - 1], t[|t| - 1];
      assert t == init + [last];
      InsertPermutes(init, x, key);
    }
  }

  /** Inserting into a sorted sequence keeps it sorted. */
  lemma {:induction false} InsertSorted<T>(t: seq<T>, x: T, key: T -> int)
    requires SortedBy(t, key)
    ensures SortedBy(Insert(t, x, key), key)
    decreases |t|
  {
    if t != [] && key(t[|t| - 1]) > key(x) {
      var init, last := t[..|t| - 1], t[|t| - 1];
      assert t == init + [last];
      InsertSorted(init, x, key);
      InsertPermutes(init, x, key);
      var r := Insert(init, x, key);
      forall m | 0 <= m < |r|
        ensures key(r[m]) <= key(last)
      {
        assert r[m] in multiset(r);
        assert r[m] in multiset(init) || r[m] == x;
      }
    }
  }

  /** The sort only reorders: the result is a permutation of the input. */
  lemma {:induction false} SortByPermutes<T>(s: seq<T>, key: T -> int)
    ensures multiset(SortBy(s, key)) == multiset(s)
  {
    if s != [] {
      var init, last := s[..|s| - 1], s[|s| - 1];
      assert s == init + [last];
      SortByPermutes(init, key);
      InsertPermutes(SortBy(init, key), last, key);
    }
  }

  /** The result is non-decreasing by `key`. */
  lemma {:induction false} SortBySorted<T>(s: seq<T>, key: T -> int)
    ensures SortedBy(SortBy(s, key), key)
  {
    if s != [] {
      SortBySorted(s[..|s| - 1], key);
      InsertSorted(SortBy(s[..|s| - 1], key), s[|s| - 1], key);
    }
  }

  /** Filtering distributes over appending one element. */
  lemma {:induction false} FilterAppend<T>(t: seq<T>, x: T, p: T -> bool)
    ensures Filter(t + [x], p) == Filter(t, p) + Filter([x], p)
  {
    if t == [] {
      assert t + [x] == [x];
    } else {
      assert (t + [x])[1..] == t[1..] + [x];
      FilterAppend(t[1..], x, p);
    }
  }

  /** Inserting `x` adds it to the end of its own key class and leaves every class otherwise in order. */
  lemma {:induction false} InsertStable<T>(t: seq<T>, x: T, key: T -> int, k: int)
    ensures Filter(Insert(t, x, key), HasKey(key, k)) == Filter(t, HasKey(key, k)) + Filter([x], HasKey(key, k))
    decreases |t|
  {
    var p := HasKey(key, k);
    if t == [] || key(t[|t| - 1]) <= key(x) {
      FilterAppend(t, x, p);
    } else {
      var init, last := t[..|t| - 1], t[|t| - 1];
      assert t == init + [last];
      InsertStable(init, x, key, k);
      FilterAppend(Insert(init, x, key), last, p);
      FilterAppend(init, last, p);
      assert !(p(x) && p(last));
    }
  }

  /** Stability: elements with equal keys keep their relative order. */
  lemma {:induction false} SortByStable<T>(s: seq<T>, key: T -> int, k: int)
    ensures Filter(SortBy(s, key), HasKey(key, k)) == Filter(s, HasKey(key, k))
  {
    if s != [] {
      var init, last := s[..|s| - 1], s[|s| - 1];
      assert s == init + [last];
      SortByStable(init, key, k);
      InsertStable(SortBy(init, key), last, key, k);
      FilterAppend(init, last, HasKey(key, k));
    }
  }

  /** Where the inner loop of `SortInPlace` stops, `Insert` puts `x`. */
  lemma {:induction false} InsertAt<T>(t: seq<T>, x: T, key: T -> int, j: nat)
    requires j <= |t|
    requires j == 0 || key(t[j - 1]) <= key(x)
    requires forall m :: j <= m < |t| ==> key(t[m]) > key(x)
    ensures Insert(t, x, key) == t[..j] + [x] + t[j..]
    decreases |t|
  {
    if j == |t| {
      assert t[..j] == t && t[j..] == [];
    } else {
      var n := |t|;
      var init, last := t[..n - 1], t[n - 1];
      calc {
        Insert(t, x, key);
        { assert key(last) > key(x); }
        Insert(init, x, key) + [last];
        { assert forall m :: j <= m < |init| ==> init[m] == t[m];
          InsertAt(init, x, key, j); }
        init[..j] + [x] + init[j..] + [last];
        { assert init[..j] == t[..j] && init[j..] + [last] == t[j..]; }
        t[..j] + [x] + t[j..];
      }
    }
  }

  /** One pass of the outer loop: placing `x` at `j` extends the sorted prefix by one element. */
  lemma SortStep<T>(orig: seq<T>, i: nat, prefix: seq<T>, x: T, key: T -> int, j: nat, after: seq<T>)
    requires i < |orig| && x == orig[i]
    requires prefix == SortBy(orig[..i], key)
    requires j <= i == |prefix|
    requires j == 0 || key(prefix[j - 1]) <= key(x)
    requires forall m :: j <= m < i ==> key(prefix[m]) > key(x)
    requires |after| == i + 1 && after[j] == x
    requires forall m :: 0 <= m < j ==> after[m] == prefix[m]
    requires forall m :: j < m <= i ==> after[m] == prefix[m - 1]
    ensures after == SortBy(orig[..i + 1], key)
  {
    assert after == prefix[..j] + [x] + prefix[j..];
    InsertAt(prefix, x, key, j);
    assert orig[..i + 1][..i] == orig[..i];
  }

  /**
   * One outer step of the insertion sort: moves `a[i]` left past the larger keys of the
   * prefix `a[..i]` and reports the slot `j` it lands in.
   */
  method InsertNext<T>(a: array<T>, i: nat, key: T -> int) returns (j: nat)
    requires i < a.Length
    modifies a
    ensures j <= i
    ensures j == 0 || key(old(a[..])[j - 1]) <= key(old(a[..])[i])
    ensures forall m :: j <= m < i ==> key(old(a[..])[m]) > key(old(a[..])[i])
    ensures a[..] == old(a[..])[..j] + [old(a[..])[i]] + old(a[..])[j..i] + old(a[..])[i + 1..]
  {
    ghost var s := a[..];
    var x := a[i];
    j := i;
    while j > 0 && key(a[j - 1]) > key(x)
      invariant 0 <= j <= i
      invariant forall m :: 0 <= m < j ==> a[m] == s[m]
      invariant forall m :: j < m <= i ==> a[m] == s[m - 1]
      invariant forall m :: j <= m < i ==> key(s[m]) > key(x)
      invariant forall m :: i < m < a.Length ==> a[m] == s[m]
    {
      a[j] := a[j - 1];
      j := j - 1;
    }
    a[j] := x;
    assert forall m :: 0 <= m < a.Length ==> a[m] == (s[..j] + [x] + s[j..i] + s[i + 1..])[m];
  }

  /** The in-place insertion sort that `sort` performs on its copy. */
  method SortInPlace<T(==)>(a: array<T>, key: T -> int)
    modifies a
    ensures a[..] == SortBy(old(a[..]), key)
  {
    ghost var orig := a[..];
    var i := 0;
    while i < a.Length
      invariant 0 <= i <= a.Length
      invariant a[..i] == SortBy(orig[..i], key)
      invariant a[i..] == orig[i..]
    {
      ghost var before := a[..];
      var j := InsertNext(a, i, key);
      assert a[..i + 1] == SortBy(orig[..i + 1], key) by {
        assert before[..i] == SortBy(orig[..i], key) && before[i] == orig[i];
        assert a[..i + 1] == before[..j] + [before[i]] + before[j..i];
        SortStep(orig, i, before[..i], orig[i], key, j, a[..i + 1]);
      }
      assert a[i + 1..] == orig[i + 1..] by {
        assert a[i + 1..] == before[i + 1..];
      }
      i := i + 1;
    }
    assert a[..] == a[..a.Length] && orig == orig[..a.Length];
  }

  /** `[...s].sort(cmp)`: sorts a fresh copy, leaving `s` as it was. */
  method SortedCopy<T(==)>(s: seq<T>, key: T -> int) returns (r: seq<T>)
    ensures r == SortBy(s, key)
    ensures SortedBy(r, key) && multiset(r) == multiset(s)
  {
    SortBySorted(s, key);
    SortByPermutes(s, key);
    var a := new T[|s|](i requires 0 <= i < |s| => s[i]);
    assert a[..] == s;
    SortInPlace(a, key);
    r := a[..];
  }

  /** Every slice of a sorted sequence is sorted. */
  lemma SortedSlice<T>(s: seq<T>, key: T -> int, start: int, end: int)
    requires SortedBy(s, key)
    ensures SortedBy(JsSlice(s, start, end), key)
  {
    var lo := SliceBound(start, |s|);
    var r := JsSlice(s, start, end);
    forall i, j | 0 <= i < j < |r|
      ensures key(r[i]) <= key(r[j])
    {
      assert r[i] == s[lo + i] && r[j] == s[lo + j];
    }
  }
}
