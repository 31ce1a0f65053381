/**
  The order-preserving `Array.prototype.filter` that the components apply to
  product lists, cart lines, colour/size lists and characters, and the
  subsequence relation that describes its result.
 */
module Seqs {

  /** `xs.filter(keep)`: the elements of `xs` that satisfy `keep`, in order. */
  function Filter<T>(xs: seq<T>, keep: T -> bool): (r: seq<T>)
    ensures |r| <= |xs|
  {
    if xs == [] then [] else (if keep(xs[0]) then [xs[0]] else []) + Filter(xs[1..], keep)
  }

  /** `sub` is obtained from `xs` by deleting elements, keeping the order of the rest. */
  predicate IsSubsequence<T(==)>(sub: seq<T>, xs: seq<T>)
  {
    sub == [] ||
    (xs != [] &&
      ((sub[0] == xs[0] && IsSubsequence(sub[1..], xs[1..])) || IsSubsequence(sub, xs[1..])))
  }

  lemma {:induction false} FilterIsSubsequence<T>(xs: seq<T>, keep: T -> bool)
    ensures IsSubsequence(Filter(xs, keep), xs)
  {
    if xs != [] {
      FilterIsSubsequence(xs[1..], keep);
      var rest := Filter(xs[1..], keep);
      if keep(xs[0]) {
        assert Filter(xs, keep) == [xs[0]] + rest;
        assert ([xs[0]] + rest)[1..] == rest;
      } else {
        assert Filter(xs, keep) == rest;
      }
    }
  }

  /** An element survives the filter exactly when it is in the input and is kept. */
  lemma {:induction false} FilterMembership<T>(xs: seq<T>, keep: T -> bool, x: T)
    ensures x in Filter(xs, keep) <==> x in xs && keep(x)
  {
    if xs != [] {
      FilterMembership(xs[1..], keep, x);
      assert xs == [xs[0]] + xs[1..];
    }
  }

  /** Every element of the result satisfies `keep`. */
  lemma {:induction false} FilterAllKept<T>(xs: seq<T>, keep: T -> bool)
    ensures forall i :: 0 <= i < |Filter(xs, keep)| ==> keep(Filter(xs, keep)[i])
  {
    forall i | 0 <= i < |Filter(xs, keep)| ensures keep(Filter(xs, keep)[i]) {
      FilterMembership(xs, keep, Filter(xs, keep)[i]);
    }
  }

  /** A filter that keeps every element returns the input unchanged. */
  lemma {:induction false} FilterKeepsAll<T>(xs: seq<T>, keep: T -> bool)
    requires forall i :: 0 <= i < |xs| ==> keep(xs[i])
    ensures Filter(xs, keep) == xs
  {
    if xs != [] {
      FilterKeepsAll(xs[1..], keep);
    }
  }

  /** Filtering distributes over concatenation. */
  lemma {:induction false} FilterConcat<T>(xs: seq<T>, ys: seq<T>, keep: T -> bool)
    ensures Filter(xs + ys, keep) == Filter(xs, keep) + Filter(ys, keep)
  {
    if xs == [] {
      assert xs + ys == ys;
    } else {
      var zs := xs + ys;
      assert zs[0] == xs[0] && zs[1..] == xs[1..] + ys;
      FilterConcat(xs[1..], ys, keep);
      calc {
        Filter(zs, keep);
        (if keep(xs[0]) then [xs[0]] else []) + Filter(xs[1..] + ys, keep);
        (if keep(xs[0]) then [xs[0]] else []) + (Filter(xs[1..], keep) + Filter(ys, keep));
      }
    }
  }

  /** Filtering twice with the same test is filtering once. */
  lemma FilterIdempotent<T>(xs: seq<T>, keep: T -> bool)
    ensures Filter(Filter(xs, keep), keep) == Filter(xs, keep)
  {
    FilterAllKept(xs, keep);
    FilterKeepsAll(Filter(xs, keep), keep);
  }

  /**
    A stricter test keeps a subsequence of what a looser test keeps: filtering
    with `strict` never yields an element that `loose` would have dropped.
   */
  lemma {:induction false} FilterNarrowing<T>(xs: seq<T>, strict: T -> bool, loose: T -> bool)
    requires forall i :: 0 <= i < |xs| && strict(xs[i]) ==> loose(xs[i])
    ensures IsSubsequence(Filter(xs, strict), Filter(xs, loose))
  {
    if xs != [] {
      FilterNarrowing(xs[1..], strict, loose);
      var s, l := Filter(xs[1..], strict), Filter(xs[1..], loose);
      if strict(xs[0]) {
        assert Filter(xs, strict) == [xs[0]] + s && Filter(xs, loose) == [xs[0]] + l;
        assert ([xs[0]] + s)[1..] == s && ([xs[0]] + l)[1..] == l;
      } else if loose(xs[0]) {
        assert Filter(xs, strict) == s && Filter(xs, loose) == [xs[0]] + l;
        SubsequenceOfTail(s, l, xs[0]);
      } else {
        assert Filter(xs, strict) == s && Filter(xs, loose) == l;
      }
    }
  }

  lemma {:induction false} SubsequenceOfTail<T>(sub: seq<T>, xs: seq<T>, x: T)
    requires IsSubsequence(sub, xs)
    ensures IsSubsequence(sub, [x] + xs)
  {
    assert ([x] + xs)[1..] == xs;
  }

  /** Every kept value survives as many times as it occurs in the input; every dropped value vanishes. */
  lemma {:induction false} FilterMultiset<T>(xs: seq<T>, keep: T -> bool, x: T)
    ensures multiset(Filter(xs, keep))[x] == if keep(x) then multiset(xs)[x] else 0
  {
    if xs != [] {
      FilterMultiset(xs[1..], keep, x);
      assert xs == [xs[0]] + xs[1..];
      assert multiset(xs) == multiset([xs[0]]) + multiset(xs[1..]);
      assert multiset(Filter(xs, keep)) ==
        multiset(if keep(xs[0]) then [xs[0]] else []) + multiset(Filter(xs[1..], keep));
    }
  }

  function Min(a: int, b: int): int
  {
    if a < b then a else b
  }

  function Max(a: int, b: int): int
  {
    if a < b then b else a
  }

  /** `xs.slice(start, end)` for a non-negative `start`: both ends are clipped to the length. */
  function Slice<T>(xs: seq<T>, start: nat, end: nat): (r: seq<T>)
    ensures |r| <= |xs|
  {
    if start >= end || start >= |xs| then [] else xs[start..Min(end, |xs|)]
  }
}
