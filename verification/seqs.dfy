/** `Array.prototype.find` and `filter` over sequences. */
module Seqs {
  import opened Wrappers

  /** The index of the first element satisfying `p`, or None; `find` returns the element at that index. */
  function FindFirst<T>(xs: seq<T>, p: T -> bool): (r: Option<nat>)
    ensures r.Some? ==> r.value < |xs| && p(xs[r.value])
    ensures r.Some? ==> forall k :: 0 <= k < r.value ==> !p(xs[k])
    ensures r.None? <==> forall k :: 0 <= k < |xs| ==> !p(xs[k])
  {
    if |xs| == 0 then None
    else if p(xs[0]) then Some(0)
    else
      var r := FindFirst(xs[1..], p);
      assert forall k :: 1 <= k < |xs| ==> xs[k] == xs[1..][k - 1];
      if r.Some? then Some(r.value + 1) else None
  }

  /** `xs.find(p)`. */
  function Find<T>(xs: seq<T>, p: T -> bool): (r: Option<T>)
    ensures r.Some? <==> exists k :: 0 <= k < |xs| && p(xs[k])
    ensures r.Some? ==> r.value in xs && p(r.value)
    ensures r.Some? ==> exists k :: 0 <= k < |xs| && xs[k] == r.value && forall j :: 0 <= j < k ==> !p(xs[j])
  {
    match FindFirst(xs, p)
    case None => None
    case Some(k) => Some(xs[k])
  }

  /** `f` and `g` of each element, side by side: `[f(x0), g(x0), f(x1), g(x1), ...]`. */
  function Pairs<T, U>(xs: seq<T>, f: T -> U, g: T -> U): (r: seq<U>)
    ensures |r| == 2 * |xs|
    ensures forall i :: 0 <= i < |xs| ==> r[2 * i] == f(xs[i]) && r[2 * i + 1] == g(xs[i])
  {
    if xs == [] then []
    else
      var rest := Pairs(xs[1..], f, g);
      var r := [f(xs[0]), g(xs[0])] + rest;
      forall i | 1 <= i < |xs|
        ensures r[2 * i] == f(xs[i]) && r[2 * i + 1] == g(xs[i])
      {
        var j := i - 1;
        assert xs[i] == xs[1..][j];
        assert r[2 * i] == rest[2 * j] && r[2 * i + 1] == rest[2 * j + 1];
      }
      r
  }

  /** `xs.filter(p)`: the elements satisfying `p`, in their original order. */
  function Filter<T(==)>(xs: seq<T>, p: T -> bool): (r: seq<T>)
    ensures |r| <= |xs|
    ensures forall k :: 0 <= k < |r| ==> r[k] in xs && p(r[k])
    ensures forall k :: 0 <= k < |xs| && p(xs[k]) ==> xs[k] in r
  {
    if |xs| == 0 then []
    else
      var rest := Filter(xs[1..], p);
      assert forall k :: 1 <= k < |xs| ==> xs[k] == xs[1..][k - 1];
      if p(xs[0]) then [xs[0]] + rest else rest
  }

  /** `r` sits in `xs` at the strictly increasing positions `idx`. */
  ghost predicate InOrder<T>(xs: seq<T>, r: seq<T>, idx: seq<nat>) {
    |idx| == |r|
    && (forall k :: 0 <= k < |idx| ==> idx[k] < |xs| && r[k] == xs[idx[k]])
    && (forall k, l :: 0 <= k < l < |idx| ==> idx[k] < idx[l])
  }

  /** Every position of `xs` from `from` on whose element satisfies `p` is listed in `idx`. */
  ghost predicate Covers<T>(xs: seq<T>, p: T -> bool, idx: seq<nat>, from: nat) {
    forall j :: from <= j < |xs| && p(xs[j]) ==> j in idx
  }

  /** Positions in the tail of `xs`, moved one place right, are positions in `xs`. */
  lemma ShiftInOrder<T>(xs: seq<T>, r: seq<T>, rest: seq<nat>) returns (shifted: seq<nat>)
    requires |xs| > 0 && InOrder(xs[1..], r, rest)
    ensures InOrder(xs, r, shifted)
    ensures |shifted| == |rest| && forall k :: 0 <= k < |rest| ==> shifted[k] == rest[k] + 1
  {
    shifted := seq(|rest|, k requires 0 <= k < |rest| => rest[k] + 1);
    forall k | 0 <= k < |shifted|
      ensures shifted[k] < |xs| && r[k] == xs[shifted[k]]
    {
      assert xs[1..][rest[k]] == xs[rest[k] + 1];
    }
  }

  /** The head of `xs` goes in front of positions that all lie in its tail. */
  lemma PrependInOrder<T>(xs: seq<T>, r: seq<T>, shifted: seq<nat>) returns (idx: seq<nat>)
    requires |xs| > 0 && InOrder(xs, r, shifted)
    requires forall k :: 0 <= k < |shifted| ==> 1 <= shifted[k]
    ensures InOrder(xs, [xs[0]] + r, idx)
    ensures idx == [0] + shifted
  {
    idx := [0] + shifted;
    forall k | 1 <= k < |idx|
      ensures idx[k] < |xs| && ([xs[0]] + r)[k] == xs[idx[k]]
    {
      assert idx[k] == shifted[k - 1];
    }
    forall k, l | 0 <= k < l < |idx|
      ensures idx[k] < idx[l]
    {
      assert idx[l] == shifted[l - 1];
      if k > 0 {
        assert idx[k] == shifted[k - 1];
      }
    }
  }

  /** The tail's positions of elements satisfying `p`, moved one place right. */
  lemma ShiftIndices<T>(xs: seq<T>, p: T -> bool, r: seq<T>, rest: seq<nat>) returns (shifted: seq<nat>)
    requires |xs| > 0 && InOrder(xs[1..], r, rest) && Covers(xs[1..], p, rest, 0)
    ensures InOrder(xs, r, shifted) && Covers(xs, p, shifted, 1)
    ensures forall k :: 0 <= k < |shifted| ==> 1 <= shifted[k]
  {
    shifted := ShiftInOrder(xs, r, rest);
    forall j | 1 <= j < |xs| && p(xs[j])
      ensures j in shifted
    {
      assert xs[j] == xs[1..][j - 1];
      var k :| 0 <= k < |rest| && rest[k] == j - 1;
      assert shifted[k] == j;
    }
  }

  /** A kept head goes in front at position 0. */
  lemma PrependHead<T>(xs: seq<T>, p: T -> bool, r: seq<T>, shifted: seq<nat>) returns (idx: seq<nat>)
    requires |xs| > 0 && p(xs[0]) && InOrder(xs, r, shifted) && Covers(xs, p, shifted, 1)
    requires forall k :: 0 <= k < |shifted| ==> 1 <= shifted[k]
    ensures InOrder(xs, [xs[0]] + r, idx) && Covers(xs, p, idx, 0)
  {
    idx := PrependInOrder(xs, r, shifted);
    forall j | 0 <= j < |xs| && p(xs[j])
      ensures j in idx
    {
      if j == 0 {
        assert idx[0] == 0;
      } else {
        assert j in shifted;
      }
    }
  }

  /**
   * `filter` keeps the original order: the kept elements sit at strictly
   * increasing positions of `xs`, and every position whose element satisfies
   * `p` is one of them.
   */
  lemma {:induction false} FilterIndices<T>(xs: seq<T>, p: T -> bool) returns (idx: seq<nat>)
    ensures InOrder(xs, Filter(xs, p), idx) && Covers(xs, p, idx, 0)
  {
    if |xs| == 0 {
      idx := [];
    } else {
      var rest := FilterIndices(xs[1..], p);
      var shifted := ShiftIndices(xs, p, Filter(xs[1..], p), rest);
      if p(xs[0]) {
        assert Filter(xs, p) == [xs[0]] + Filter(xs[1..], p);
        idx := PrependHead(xs, p, Filter(xs[1..], p), shifted);
      } else {
        assert Filter(xs, p) == Filter(xs[1..], p);
        idx := shifted;
      }
    }
  }

  /** The first `m` of a list of positions are positions of the first `m` elements. */
  lemma InOrderPrefix<T>(xs: seq<T>, r: seq<T>, idx: seq<nat>, m: nat)
    requires InOrder(xs, r, idx) && m <= |idx|
    ensures InOrder(xs, r[..m], idx[..m])
  {
  }

  /**
   * Among strictly increasing positions covering every element that satisfies `p`,
   * the first `m` include every such position before the `m`-th.
   */
  lemma CoveredBefore<T>(xs: seq<T>, p: T -> bool, all: seq<nat>, m: nat)
    requires m <= |all|
    requires forall k :: 0 <= k < |all| ==> all[k] < |xs|
    requires forall k, l :: 0 <= k < l < |all| ==> all[k] < all[l]
    requires Covers(xs, p, all, 0)
    ensures forall k, j :: 0 <= k < m && 0 <= j < all[k] && p(xs[j]) ==> j in all[..m]
  {
    forall k, j | 0 <= k < m && 0 <= j < all[k] && p(xs[j])
      ensures j in all[..m]
    {
      var a :| 0 <= a < |all| && all[a] == j;
      assert a < k;
      assert all[..m][a] == j;
    }
  }

  /** `filter` distributes over concatenation, which fixes the order of what it keeps. */
  lemma {:induction false} FilterAppend<T>(xs: seq<T>, ys: seq<T>, p: T -> bool)
    ensures Filter(xs + ys, p) == Filter(xs, p) + Filter(ys, p)
  {
    if |xs| > 0 {
      assert (xs + ys)[1..] == xs[1..] + ys;
      FilterAppend(xs[1..], ys, p);
    } else {
      assert xs + ys == ys;
    }
  }

  /** The first element kept by `filter` is the one `find` returns. */
  lemma {:induction false} FilterHead<T>(xs: seq<T>, p: T -> bool)
    ensures Filter(xs, p) == [] <==> FindFirst(xs, p).None?
    ensures Filter(xs, p) != [] ==> Filter(xs, p)[0] == xs[FindFirst(xs, p).value]
  {
    if |xs| > 0 && !p(xs[0]) {
      FilterHead(xs[1..], p);
    }
  }

  /** Filtering twice with the same condition is filtering once. */
  lemma {:induction false} FilterIdempotent<T>(xs: seq<T>, p: T -> bool)
    ensures Filter(Filter(xs, p), p) == Filter(xs, p)
  {
    if |xs| > 0 {
      FilterIdempotent(xs[1..], p);
      if p(xs[0]) {
        assert ([xs[0]] + Filter(xs[1..], p))[1..] == Filter(xs[1..], p);
      }
    }
  }
}
