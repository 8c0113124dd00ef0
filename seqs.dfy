// The array operations the screens are built from: `filter`, `findIndex`,
// `indexOf`, `find` and `slice(0, n)`, with the facts the screens rely on.

module Seqs {
  import opened Types

  /** `Array.prototype.filter`: the elements satisfying `p`, in their original order. */
  function Filter<T(==)>(s: seq<T>, p: T -> bool): (r: seq<T>)
    ensures |r| <= |s|
    ensures forall i :: 0 <= i < |r| ==> r[i] in s && p(r[i])
    ensures forall i :: 0 <= i < |s| && p(s[i]) ==> s[i] in r
  {
    if s == [] then [] else (if p(s[0]) then [s[0]] else []) + Filter(s[1..], p)
  }

  /** `xs` can be obtained from `ys` by deleting elements. */
  predicate IsSubsequence<T(==)>(xs: seq<T>, ys: seq<T>)
    decreases |ys|
  {
    xs == [] ||
    (ys != [] &&
     ((xs[0] == ys[0] && IsSubsequence(xs[1..], ys[1..])) || IsSubsequence(xs, ys[1..])))
  }

  lemma {:induction false} FilterIsSubsequence<T>(s: seq<T>, p: T -> bool)
    ensures IsSubsequence(Filter(s, p), s)
  {
    if s != [] {
      FilterIsSubsequence(s[1..], p);
      var rest := Filter(s[1..], p);
      if p(s[0]) {
        assert Filter(s, p) == [s[0]] + rest;
        assert ([s[0]] + rest)[1..] == rest;
      } else {
        assert Filter(s, p) == rest;
      }
    }
  }

  /** A filter that keeps exactly the positions `a <= k < b` returns that slice. */
  lemma {:induction false} FilterWindow<T>(s: seq<T>, p: T -> bool, a: int, b: int)
    requires 0 <= a <= b <= |s|
    requires forall k :: 0 <= k < |s| ==> (p(s[k]) <==> a <= k < b)
    ensures Filter(s, p) == s[a..b]
  {
    if b == 0 {
      FilterNone(s, p);
    } else {
      var t, a', b' := s[1..], if a > 0 then a - 1 else 0, b - 1;
      forall k | 0 <= k < |t| ensures p(t[k]) <==> a' <= k < b' {
        assert t[k] == s[k + 1];
      }
      FilterWindow(t, p, a', b');
      if a > 0 {
        assert !p(s[0]);
        assert t[a'..b'] == s[a..b];
      } else {
        assert p(s[0]);
        assert [s[0]] + t[..b'] == s[..b];
      }
    }
  }

  lemma {:induction false} FilterNone<T>(s: seq<T>, p: T -> bool)
    requires forall k :: 0 <= k < |s| ==> !p(s[k])
    ensures Filter(s, p) == []
  {
    if s != [] {
      FilterNone(s[1..], p);
    }
  }

  lemma {:induction false} FilterAll<T>(s: seq<T>, p: T -> bool)
    requires forall k :: 0 <= k < |s| ==> p(s[k])
    ensures Filter(s, p) == s
  {
    if s != [] {
      FilterAll(s[1..], p);
    }
  }

  /** Deleting elements never adds matches: a subsequence has at most as many elements satisfying `q`. */
  lemma {:induction false} FilterSubsequenceLength<T>(xs: seq<T>, ys: seq<T>, q: T -> bool)
    requires IsSubsequence(xs, ys)
    ensures |Filter(xs, q)| <= |Filter(ys, q)|
    decreases |ys|
  {
    if xs != [] {
      if xs[0] == ys[0] && IsSubsequence(xs[1..], ys[1..]) {
        FilterSubsequenceLength(xs[1..], ys[1..], q);
      } else {
        FilterSubsequenceLength(xs, ys[1..], q);
      }
    }
  }

  lemma {:induction false} FilterAppend<T>(xs: seq<T>, ys: seq<T>, p: T -> bool)
    ensures Filter(xs + ys, p) == Filter(xs, p) + Filter(ys, p)
  {
    if xs == [] {
      assert xs + ys == ys;
    } else {
      assert (xs + ys)[1..] == xs[1..] + ys;
      FilterAppend(xs[1..], ys, p);
    }
  }

  /** `Array.prototype.findIndex`: the first position satisfying `p`, or -1. */
  function FindIndex<T>(s: seq<T>, p: T -> bool): (r: int)
    ensures -1 <= r < |s|
    ensures r == -1 <==> forall i :: 0 <= i < |s| ==> !p(s[i])
    ensures r >= 0 ==> p(s[r]) && forall i :: 0 <= i < r ==> !p(s[i])
  {
    if s == [] then -1
    else if p(s[0]) then 0
    else
      var k := FindIndex(s[1..], p);
      if k == -1 then -1 else k + 1
  }

  /** `Array.prototype.indexOf`: the first position holding `x`, or -1. */
  function IndexOf<T(==)>(s: seq<T>, x: T): (r: int)
    ensures -1 <= r < |s|
    ensures r == -1 <==> x !in s
    ensures r >= 0 ==> s[r] == x && x !in s[..r]
  {
    FindIndex(s, y => y == x)
  }

  /** `Array.prototype.find`: the first element satisfying `p`, if any. */
  function Find<T>(s: seq<T>, p: T -> bool): (r: Option<T>)
    ensures r.None? <==> forall i :: 0 <= i < |s| ==> !p(s[i])
    ensures r.Some? ==> 0 <= FindIndex(s, p) && r.value == s[FindIndex(s, p)] && p(r.value)
  {
    var k := FindIndex(s, p);
    if k == -1 then None else Some(s[k])
  }

  predicate Distinct<T(==)>(s: seq<T>) {
    forall i, j :: 0 <= i < j < |s| ==> s[i] != s[j]
  }

  /** Without repetitions, the first occurrence of `s[k]` is `k`. */
  lemma IndexOfDistinct<T>(s: seq<T>, k: int)
    requires Distinct(s) && 0 <= k < |s|
    ensures IndexOf(s, s[k]) == k
  {
  }

  /** `slice(0, n)`: the first `n` elements, or all of them when there are fewer. */
  function Take<T>(s: seq<T>, n: nat): (r: seq<T>)
    ensures r <= s
    ensures |r| == if n < |s| then n else |s|
  {
    if n < |s| then s[..n] else s
  }
}
