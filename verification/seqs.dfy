/** Sequence operations shared by the pages and route handlers: filtering,
    summing, de-duplication and sorting, each with the facts the model uses. */
module Seqs {

  /** `a` is an order-preserving subsequence of `b`, witnessed by the strictly
      increasing positions `idx` at which `a`'s elements sit in `b`. */
  ghost predicate Embedding<T>(idx: seq<int>, a: seq<T>, b: seq<T>) {
    && |idx| == |a|
    && (forall i :: 0 <= i < |idx| ==> 0 <= idx[i] < |b| && a[i] == b[idx[i]])
    && (forall i, j :: 0 <= i < j < |idx| ==> idx[i] < idx[j])
  }

  ghost predicate SubsequenceOf<T>(a: seq<T>, b: seq<T>) {
    exists idx :: Embedding(idx, a, b)
  }

  /** The elements of `s` that satisfy `keep`, in their original order
      (`Array.prototype.filter`). */
  function Filter<T(!new)>(s: seq<T>, keep: T -> bool): (r: seq<T>)
    ensures |r| <= |s|
    ensures forall x :: x in r <==> x in s && keep(x)
    ensures forall x :: multiset(r)[x] == if keep(x) then multiset(s)[x] else 0
  {
    if |s| == 0 then []
    else
      assert s == [s[0]] + s[1..];
      (if keep(s[0]) then [s[0]] else []) + Filter(s[1..], keep)
  }

  /** The positions `idx` moved one place to the right. */
  function Shift(idx: seq<int>): (r: seq<int>)
    ensures |r| == |idx|
    ensures forall i :: 0 <= i < |r| ==> r[i] == idx[i] + 1
  {
    seq(|idx|, i requires 0 <= i < |idx| => idx[i] + 1)
  }

  lemma EmbeddingSkip<T>(idx: seq<int>, a: seq<T>, b: seq<T>)
    requires |b| > 0 && Embedding(idx, a, b[1..])
    ensures Embedding(Shift(idx), a, b)
  {
  }

  lemma EmbeddingKeep<T>(idx: seq<int>, a: seq<T>, b: seq<T>)
    requires |b| > 0 && Embedding(idx, a, b[1..])
    ensures Embedding([0] + Shift(idx), [b[0]] + a, b)
  {
    var idx' := [0] + Shift(idx);
    var a' := [b[0]] + a;
    assert forall i :: 1 <= i < |idx'| ==> idx'[i] == idx[i - 1] + 1 && a'[i] == a[i - 1];
  }

  /** What `filter` returns is an order-preserving subsequence of its input. */
  lemma {:induction false} FilterIsSubsequence<T(!new)>(s: seq<T>, keep: T -> bool)
    ensures SubsequenceOf(Filter(s, keep), s)
  {
    if |s| == 0 {
      assert Embedding([], Filter(s, keep), s);
    } else {
      FilterIsSubsequence(s[1..], keep);
      var tail := Filter(s[1..], keep);
      var idx :| Embedding(idx, tail, s[1..]);
      if keep(s[0]) {
        EmbeddingKeep(idx, tail, s);
        assert Embedding([0] + Shift(idx), Filter(s, keep), s);
      } else {
        EmbeddingSkip(idx, tail, s);
        assert Embedding(Shift(idx), Filter(s, keep), s);
      }
    }
  }

  /** A filter that keeps everything is the identity. */
  lemma {:induction false} FilterKeepAll<T(!new)>(s: seq<T>, keep: T -> bool)
    requires forall x :: x in s ==> keep(x)
    ensures Filter(s, keep) == s
  {
    if |s| > 0 {
      FilterKeepAll(s[1..], keep);
      assert s == [s[0]] + s[1..];
    }
  }

  /** Filters that agree on the elements of `s` give the same result. */
  lemma {:induction false} FilterCongruent<T(!new)>(s: seq<T>, p: T -> bool, q: T -> bool)
    requires forall x :: x in s ==> p(x) == q(x)
    ensures Filter(s, p) == Filter(s, q)
  {
    if |s| > 0 {
      FilterCongruent(s[1..], p, q);
    }
  }

  /** Filtering with a narrower predicate is filtering the wider result again. */
  lemma {:induction false} FilterNarrow<T(!new)>(s: seq<T>, wide: T -> bool, narrow: T -> bool)
    requires forall x :: narrow(x) ==> wide(x)
    ensures Filter(s, narrow) == Filter(Filter(s, wide), narrow)
  {
    if |s| > 0 {
      FilterNarrow(s[1..], wide, narrow);
      var rest := Filter(s[1..], wide);
      if wide(s[0]) {
        var w := [s[0]] + rest;
        assert Filter(s, wide) == w;
        assert w[0] == s[0] && w[1..] == rest;
      } else {
        assert Filter(s, wide) == rest;
      }
    }
  }

  /** The sum of `f` over `s`, accumulated from the left as
      `s.reduce((sum, x) => sum + f(x), 0)` does. */
  function Sum<T>(s: seq<T>, f: T -> real): real
  {
    if |s| == 0 then 0.0 else Sum(s[..|s| - 1], f) + f(s[|s| - 1])
  }

  /** A sum of `n` terms each at most `hi` is at most `n * hi`. */
  lemma {:induction false} SumAtMost<T>(s: seq<T>, f: T -> real, hi: real)
    requires forall x :: x in s ==> f(x) <= hi
    ensures Sum(s, f) <= |s| as real * hi
  {
    if |s| > 0 {
      var s' := s[..|s| - 1];
      assert forall x :: x in s' ==> x in s;
      SumAtMost(s', f, hi);
      assert s[|s| - 1] in s;
    }
  }

  /** A sum of `n` terms each at least `lo` is at least `n * lo`. */
  lemma {:induction false} SumAtLeast<T>(s: seq<T>, f: T -> real, lo: real)
    requires forall x :: x in s ==> lo <= f(x)
    ensures |s| as real * lo <= Sum(s, f)
  {
    if |s| > 0 {
      var s' := s[..|s| - 1];
      assert forall x :: x in s' ==> x in s;
      SumAtLeast(s', f, lo);
      assert s[|s| - 1] in s;
    }
  }

  /** Termwise `f <= c * g` carries over to the sums. */
  lemma {:induction false} SumScaledBound<T>(s: seq<T>, f: T -> real, g: T -> real, c: real)
    requires forall x :: x in s ==> f(x) <= c * g(x)
    ensures Sum(s, f) <= c * Sum(s, g)
  {
    if |s| > 0 {
      var s' := s[..|s| - 1];
      assert forall x :: x in s' ==> x in s;
      SumScaledBound(s', f, g, c);
      assert s[|s| - 1] in s;
    }
  }

  /** Sums of two sequences agree when their terms agree position by position. */
  lemma {:induction false} SumPointwise<T, U>(a: seq<T>, f: T -> real, b: seq<U>, g: U -> real)
    requires |a| == |b|
    requires forall i :: 0 <= i < |a| ==> f(a[i]) == g(b[i])
    ensures Sum(a, f) == Sum(b, g)
  {
    if |a| > 0 {
      SumPointwise(a[..|a| - 1], f, b[..|b| - 1], g);
    }
  }

  /** The position of the first occurrence of `x` in `s`. */
  function FirstIndex<T(==)>(s: seq<T>, x: T): (r: int)
    requires x in s
    ensures 0 <= r < |s| && s[r] == x && x !in s[..r]
  {
    if s[0] == x then 0
    else
      assert s == [s[0]] + s[1..];
      1 + FirstIndex(s[1..], x)
  }

  lemma FirstIndexInPrefix<T>(s: seq<T>, k: int, x: T)
    requires 0 <= k <= |s| && x in s[..k]
    ensures FirstIndex(s, x) == FirstIndex(s[..k], x)
  {
    var j := FirstIndex(s[..k], x);
    assert s[..k][..j] == s[..j];
  }

  predicate NoDuplicates<T(==)>(s: seq<T>) {
    forall i, j :: 0 <= i < j < |s| ==> s[i] != s[j]
  }

  /** `Array.from(new Set(s))`: each distinct element once, in order of first occurrence. */
  function Distinct<T(==,!new)>(s: seq<T>): (r: seq<T>)
    ensures forall x :: x in r <==> x in s
    ensures NoDuplicates(r)
    ensures forall i, j :: 0 <= i < j < |r| ==> FirstIndex(s, r[i]) < FirstIndex(s, r[j])
  {
    if |s| == 0 then []
    else
      var front := s[..|s| - 1];
      var x := s[|s| - 1];
      var d := Distinct(front);
      assert forall y :: y in front ==> y in s;
      DistinctStep(s, d);
      if x in d then d else d + [x]
  }

  /** The step of `Distinct`: positions of first occurrence in the prefix carry over to `s`. */
  lemma DistinctStep<T>(s: seq<T>, d: seq<T>)
    requires |s| > 0
    requires forall y :: y in d <==> y in s[..|s| - 1]
    ensures forall y :: y in d ==> y in s && FirstIndex(s, y) == FirstIndex(s[..|s| - 1], y)
    ensures s[|s| - 1] !in d ==> FirstIndex(s, s[|s| - 1]) == |s| - 1
  {
    var n := |s| - 1;
    forall y | y in d
      ensures y in s && FirstIndex(s, y) == FirstIndex(s[..n], y)
    {
      FirstIndexInPrefix(s, n, y);
    }
  }

  ghost predicate SortedBy<T>(s: seq<T>, key: T -> real) {
    forall i, j :: 0 <= i < j < |s| ==> key(s[i]) <= key(s[j])
  }

  lemma ConsSorted<T>(h: T, t: seq<T>, key: T -> real)
    requires SortedBy(t, key)
    requires forall i :: 0 <= i < |t| ==> key(h) <= key(t[i])
    ensures SortedBy([h] + t, key)
  {
    var r := [h] + t;
    assert forall i :: 1 <= i < |r| ==> r[i] == t[i - 1];
  }

  /** Every element of a sequence holding the elements of `u` plus `x` has a key at
      least `bound` when all of those do. */
  lemma LowerBoundCarries<T>(t: seq<T>, u: seq<T>, x: T, key: T -> real, bound: real)
    requires multiset(t) == multiset(u) + multiset{x}
    requires bound <= key(x)
    requires forall i :: 0 <= i < |u| ==> bound <= key(u[i])
    ensures forall i :: 0 <= i < |t| ==> bound <= key(t[i])
  {
    forall i | 0 <= i < |t|
      ensures bound <= key(t[i])
    {
      assert t[i] in multiset(t);
      if t[i] != x {
        assert t[i] in multiset(u);
        var k :| 0 <= k < |u| && u[k] == t[i];
      }
    }
  }

  /** `x` placed into the sorted `s` ahead of the first element whose key is not smaller. */
  function Insert<T>(x: T, s: seq<T>, key: T -> real): (r: seq<T>)
    requires SortedBy(s, key)
    ensures multiset(r) == multiset(s) + multiset{x}
    ensures SortedBy(r, key)
  {
    if |s| == 0 then [x]
    else if key(x) <= key(s[0]) then
      ConsSorted(x, s, key);
      [x] + s
    else
      assert s == [s[0]] + s[1..];
      var rest := Insert(x, s[1..], key);
      LowerBoundCarries(rest, s[1..], x, key, key(s[0]));
      ConsSorted(s[0], rest, key);
      [s[0]] + rest
  }

  /** `s` ordered by ascending `key` (the store's `order(key, ascending)`). */
  function SortBy<T>(s: seq<T>, key: T -> real): (r: seq<T>)
    ensures SortedBy(r, key)
    ensures multiset(r) == multiset(s)
  {
    if |s| == 0 then []
    else
      assert s == [s[0]] + s[1..];
      Insert(s[0], SortBy(s[1..], key), key)
  }
}
