/**
 * The JavaScript array and string primitives the application leans on
 * (`filter`, `find`/`findIndex`, `slice`, `splice`, `toLowerCase`, `includes`),
 * each stated once with the property callers rely on.
 */
module Collections {
  import opened Wrappers

  /** `r` keeps some of the elements of `s`, in the order they have in `s`. */
  predicate IsSubsequence<T(==)>(r: seq<T>, s: seq<T>)
  {
    if r == [] then true
    else if s == [] then false
    else (r[0] == s[0] && IsSubsequence(r[1..], s[1..])) || IsSubsequence(r, s[1..])
  }

  /** `Array.prototype.filter`: the elements of `s` that satisfy `p`, in order. */
  function Filter<T(==)>(s: seq<T>, p: T -> bool): (r: seq<T>)
    ensures |r| <= |s|
    ensures forall i :: 0 <= i < |r| ==> r[i] in s && p(r[i])
    ensures forall i :: 0 <= i < |s| && p(s[i]) ==> s[i] in r
    ensures IsSubsequence(r, s)
  {
    if s == [] then []
    else if p(s[0]) then
      var rest := Filter(s[1..], p);
      assert [s[0]] + rest != [] && ([s[0]] + rest)[1..] == rest;
      [s[0]] + rest
    else
      var rest := Filter(s[1..], p);
      assert rest != [] ==> IsSubsequence(rest, s[1..]);
      rest
  }

  /** `filter` keeps every copy of an element that passes and no copy of one that fails. */
  lemma {:induction false} FilterCounts<T>(s: seq<T>, p: T -> bool)
    ensures forall x :: multiset(Filter(s, p))[x] == if p(x) then multiset(s)[x] else 0
  {
    if s != [] {
      FilterCounts(s[1..], p);
      assert s == [s[0]] + s[1..];
    }
  }

  /** Removing the first element of a subsequence keeps it a subsequence. */
  lemma {:induction false} SubsequenceTail<T>(r: seq<T>, s: seq<T>)
    requires r != [] && IsSubsequence(r, s)
    ensures IsSubsequence(r[1..], s)
    decreases |s|
  {
    if s == [] {
    } else if r[0] == s[0] && IsSubsequence(r[1..], s[1..]) {
      SubsequenceOfTail(r[1..], s);
    } else {
      SubsequenceTail(r, s[1..]);
      SubsequenceOfTail(r[1..], s);
    }
  }

  /** A subsequence of the tail of `s` is a subsequence of `s`. */
  lemma {:induction false} SubsequenceOfTail<T>(r: seq<T>, s: seq<T>)
    requires s != [] && IsSubsequence(r, s[1..])
    ensures IsSubsequence(r, s)
  {
  }

  /** Every prefix of a subsequence of `s` is a subsequence of `s`. */
  lemma {:induction false} PrefixOfSubsequence<T>(r: seq<T>, s: seq<T>, n: nat)
    requires n <= |r| && IsSubsequence(r, s)
    ensures IsSubsequence(r[..n], s)
    decreases |s|
  {
    if n == 0 {
    } else if s == [] {
    } else if r[0] == s[0] && IsSubsequence(r[1..], s[1..]) {
      PrefixOfSubsequence(r[1..], s[1..], n - 1);
      assert r[..n][1..] == r[1..][..n - 1];
    } else {
      PrefixOfSubsequence(r, s[1..], n);
      SubsequenceOfTail(r[..n], s);
    }
  }

  /** `Array.prototype.findIndex`, with -1 written as None: the first index whose element satisfies `p`. */
  function FirstIndex<T>(s: seq<T>, p: T -> bool): (r: Option<nat>)
    ensures r.Some? ==> r.value < |s| && p(s[r.value])
    ensures r.Some? ==> forall j :: 0 <= j < r.value ==> !p(s[j])
    ensures r.None? <==> forall j :: 0 <= j < |s| ==> !p(s[j])
  {
    if s == [] then None
    else if p(s[0]) then Some(0)
    else
      match FirstIndex(s[1..], p)
      case None => None
      case Some(i) => Some(i + 1)
  }

  /** `Array.prototype.find`, with undefined written as None. */
  function Find<T>(s: seq<T>, p: T -> bool): Option<T>
  {
    match FirstIndex(s, p)
    case None => None
    case Some(i) => Some(s[i])
  }

  /** The value of one index argument of `Array.prototype.slice` after clamping to `0..n`. */
  function SliceBound(k: int, n: nat): (b: nat)
  {
    if k < 0 then (if n + k < 0 then 0 else n + k)
    else if k > n then n
    else k
  }

  /** `Array.prototype.slice(start, end)`, negative arguments counting from the end. */
  function JsSlice<T>(s: seq<T>, start: int, end: int): (r: seq<T>)
    ensures |r| <= |s|
    ensures 0 <= start ==> forall i :: 0 <= i < |r| ==> start + i < |s| && r[i] == s[start + i]
    ensures start <= end ==> |r| <= end - start
    ensures 0 <= start <= end <= |s| ==> |r| == end - start
    ensures 0 <= start && 0 <= end && |r| < end - start ==> start + |r| >= |s|
  {
    var lo, hi := SliceBound(start, |s|), SliceBound(end, |s|);
    if lo < hi then s[lo..hi] else []
  }

  /** `Array.prototype.splice(i, 1)`: drop the element at `i`. */
  function RemoveAt<T>(s: seq<T>, i: nat): (r: seq<T>)
    requires i < |s|
    ensures |r| == |s| - 1
    ensures forall j :: 0 <= j < i ==> r[j] == s[j]
    ensures forall j :: i <= j < |r| ==> r[j] == s[j + 1]
  {
    s[..i] + s[i + 1..]
  }

  /** `String.prototype.toLowerCase` on one character; only ASCII letters are folded. */
  function LowerChar(c: char): char
  {
    if 'A' <= c <= 'Z' then (c as int + 32) as char else c
  }

  /** `String.prototype.toLowerCase`, ASCII letters only. */
  function Lower(s: string): string
  {
    seq(|s|, i requires 0 <= i < |s| => LowerChar(s[i]))
  }

  /** `String.prototype.includes`: `needle` occurs in `hay` at some position. */
  predicate Contains(hay: string, needle: string)
  {
    needle <= hay || (hay != [] && Contains(hay[1..], needle))
  }

  /** Case-insensitive equality, `a.toLowerCase() === b.toLowerCase()`. */
  predicate EqualsIgnoreCase(a: string, b: string)
  {
    Lower(a) == Lower(b)
  }

  /** `s.reduce((total, x) => total + f(x), 0)`: a left fold from 0. */
  function SumBy<T>(s: seq<T>, f: T -> int): int
  {
    if s == [] then 0 else SumBy(s[..|s| - 1], f) + f(s[|s| - 1])
  }

  /** The fold over a concatenation is the sum of the folds. */
  lemma {:induction false} SumByConcat<T>(a: seq<T>, b: seq<T>, f: T -> int)
    ensures SumBy(a + b, f) == SumBy(a, f) + SumBy(b, f)
    decreases |b|
  {
    if b == [] {
      assert a + b == a;
    } else {
      var init, last := b[..|b| - 1], b[|b| - 1];
      assert (a + b)[..|a + b| - 1] == a + init;
      SumByConcat(a, init, f);
    }
  }

  /** The fold over a single element is that element's term. */
  lemma SumBySingle<T>(x: T, f: T -> int)
    ensures SumBy([x], f) == f(x)
  {
    assert [x][..0] == [];
  }

  /** An element between two runs adds its term to the fold of the two runs. */
  lemma {:induction false} SumByMiddle<T>(before: seq<T>, x: T, after: seq<T>, f: T -> int)
    ensures SumBy(before + [x] + after, f) == SumBy(before + after, f) + f(x)
  {
    SumByConcat(before + [x], after, f);
    SumByConcat(before, [x], f);
    SumBySingle(x, f);
    SumByConcat(before, after, f);
  }

  /** Replacing one element changes the fold by the difference of the two terms. */
  lemma {:induction false} SumByReplace<T>(s: seq<T>, i: nat, x: T, f: T -> int)
    requires i < |s|
    ensures SumBy(s[i := x], f) == SumBy(s, f) - f(s[i]) + f(x)
  {
    var before, after := s[..i], s[i + 1..];
    assert s == before + [s[i]] + after;
    assert s[i := x] == before + [x] + after;
    SumByMiddle(before, s[i], after, f);
    SumByMiddle(before, x, after, f);
  }

  /** Dropping one element takes its term out of the fold. */
  lemma {:induction false} SumByRemoveAt<T>(s: seq<T>, i: nat, f: T -> int)
    requires i < |s|
    ensures SumBy(RemoveAt(s, i), f) == SumBy(s, f) - f(s[i])
  {
    var before, after := s[..i], s[i + 1..];
    assert s == before + [s[i]] + after;
    assert RemoveAt(s, i) == before + after;
    SumByMiddle(before, s[i], after, f);
  }

  /** A fold whose every term is 0 is 0. */
  lemma {:induction false} SumByZero<T>(s: seq<T>, f: T -> int)
    requires forall k :: 0 <= k < |s| ==> f(s[k]) == 0
    ensures SumBy(s, f) == 0
  {
    if s != [] {
      SumByZero(s[..|s| - 1], f);
    }
  }

  /** A fold whose terms are 0 except at `i` is the term at `i`. */
  lemma {:induction false} SumByOnly<T>(s: seq<T>, i: nat, f: T -> int)
    requires i < |s|
    requires forall k :: 0 <= k < |s| && k != i ==> f(s[k]) == 0
    ensures SumBy(s, f) == f(s[i])
  {
    var before, after := s[..i], s[i + 1..];
    assert s == before + [s[i]] + after;
    SumByMiddle(before, s[i], after, f);
    SumByConcat(before, after, f);
    SumByZero(before, f);
    SumByZero(after, f);
  }

  /** A filter every element passes keeps everything. */
  lemma {:induction false} FilterAll<T>(s: seq<T>, p: T -> bool)
    requires forall k :: 0 <= k < |s| ==> p(s[k])
    ensures Filter(s, p) == s
  {
    if s != [] {
      FilterAll(s[1..], p);
    }
  }

  /** Two tests that agree on every element of `s` filter it alike. */
  lemma {:induction false} FilterExtensional<T>(s: seq<T>, p: T -> bool, q: T -> bool)
    requires forall k :: 0 <= k < |s| ==> p(s[k]) == q(s[k])
    ensures Filter(s, p) == Filter(s, q)
  {
    if s != [] {
      FilterExtensional(s[1..], p, q);
    }
  }

  /** Filtering by `p` and then by `q` is filtering once by `pq`, their conjunction. */
  lemma {:induction false} FilterFilter<T>(s: seq<T>, p: T -> bool, q: T -> bool, pq: T -> bool)
    requires forall k :: 0 <= k < |s| ==> pq(s[k]) == (p(s[k]) && q(s[k]))
    ensures Filter(Filter(s, p), q) == Filter(s, pq)
  {
    if s != [] {
      FilterFilter(s[1..], p, q, pq);
      if p(s[0]) {
        assert Filter(s, p)[1..] == Filter(s[1..], p);
      }
    }
  }

  /** Every element of a slice comes from the sliced sequence. */
  lemma JsSliceElement<T>(s: seq<T>, start: int, end: int, k: nat)
    requires k < |JsSlice(s, start, end)|
    ensures exists i :: 0 <= i < |s| && JsSlice(s, start, end)[k] == s[i]
  {
    var lo := SliceBound(start, |s|);
    assert JsSlice(s, start, end)[k] == s[lo + k];
  }

  /** Every suffix of a subsequence of `s` is a subsequence of `s`. */
  lemma {:induction false} SuffixOfSubsequence<T>(r: seq<T>, s: seq<T>, n: nat)
    requires n <= |r| && IsSubsequence(r, s)
    ensures IsSubsequence(r[n..], s)
  {
    if n > 0 {
      SubsequenceTail(r, s);
      SuffixOfSubsequence(r[1..], s, n - 1);
      assert r[1..][n - 1..] == r[n..];
    }
  }

  /** Every slice of a subsequence of `s` is a subsequence of `s`. */
  lemma SliceOfSubsequence<T>(r: seq<T>, s: seq<T>, start: int, end: int)
    requires IsSubsequence(r, s)
    ensures IsSubsequence(JsSlice(r, start, end), s)
  {
    var lo, hi := SliceBound(start, |r|), SliceBound(end, |r|);
    if lo < hi {
      PrefixOfSubsequence(r, s, hi);
      SuffixOfSubsequence(r[..hi], s, lo);
      assert r[..hi][lo..] == r[lo..hi];
    }
  }

  /** Appending elements does not move the first match of a prefix that already has one. */
  lemma FirstIndexPrefix<T>(a: seq<T>, b: seq<T>, p: T -> bool)
    requires FirstIndex(a, p).Some?
    ensures FirstIndex(a + b, p) == FirstIndex(a, p)
  {
    var i := FirstIndex(a, p).value;
    assert (a + b)[i] == a[i];
    assert forall j :: 0 <= j < i ==> (a + b)[j] == a[j];
  }
}
