/**
  Generic sequence operations used by the task list: the array `map` and
  `filter` of the host language, and the order-preserving subsequence relation
  that states what a filter may and may not do to a list.
 */
module Seqs {

  /** `xs.map(f)`: applies `f` to every element and keeps every position. */
  function Map<T, U>(f: T -> U, xs: seq<T>): (r: seq<U>)
    ensures |r| == |xs|
    ensures forall i :: 0 <= i < |xs| ==> r[i] == f(xs[i])
  {
    if xs == [] then [] else [f(xs[0])] + Map(f, xs[1..])
  }

  /** `xs.filter(p)`: keeps the elements satisfying `p`, in their original order. */
  function Filter<T(==, !new)>(p: T -> bool, xs: seq<T>): (r: seq<T>)
    ensures |r| <= |xs|
    ensures forall x :: x in r <==> x in xs && p(x)
  {
    if xs == [] then []
    else if p(xs[0]) then [xs[0]] + Filter(p, xs[1..])
    else Filter(p, xs[1..])
  }

  /** `xs` can be obtained from `ys` by deleting elements, without reordering. */
  predicate IsSubsequence<T(==, !new)>(xs: seq<T>, ys: seq<T>)
    decreases |ys|
  {
    || xs == []
    || (&& ys != []
        && (|| (xs[0] == ys[0] && IsSubsequence(xs[1..], ys[1..]))
            || IsSubsequence(xs, ys[1..])))
  }

  /** The filtered list is an order-preserving subsequence of its input. */
  lemma {:induction false} FilterIsSubsequence<T(!new)>(p: T -> bool, xs: seq<T>)
    ensures IsSubsequence(Filter(p, xs), xs)
  {
    if xs != [] {
      FilterIsSubsequence(p, xs[1..]);
      var rest := Filter(p, xs[1..]);
      if p(xs[0]) {
        assert ([xs[0]] + rest)[1..] == rest;
      }
    }
  }

  /** Filtering a list whose every element passes changes nothing. */
  lemma {:induction false} FilterKeepsAll<T(!new)>(p: T -> bool, xs: seq<T>)
    requires forall i :: 0 <= i < |xs| ==> p(xs[i])
    ensures Filter(p, xs) == xs
  {
    if xs != [] {
      FilterKeepsAll(p, xs[1..]);
      assert [xs[0]] + xs[1..] == xs;
    }
  }

  /** Filtering twice by the same predicate is filtering once. */
  lemma FilterIdempotent<T(!new)>(p: T -> bool, xs: seq<T>)
    ensures Filter(p, Filter(p, xs)) == Filter(p, xs)
  {
  }

  /** Two successive filters are one filter by the conjunction of their predicates. */
  lemma {:induction false} FilterFuse<T(!new)>(p: T -> bool, q: T -> bool, pq: T -> bool, xs: seq<T>)
    requires forall x :: pq(x) == (p(x) && q(x))
    ensures Filter(p, Filter(q, xs)) == Filter(pq, xs)
  {
    if xs != [] {
      FilterFuse(p, q, pq, xs[1..]);
      if q(xs[0]) {
        assert ([xs[0]] + Filter(q, xs[1..]))[1..] == Filter(q, xs[1..]);
      }
    }
  }

  /** A predicate and its negation split a list: the two filtered lengths add up to its length. */
  lemma {:induction false} FilterSplit<T(!new)>(p: T -> bool, notP: T -> bool, xs: seq<T>)
    requires forall x :: notP(x) == !p(x)
    ensures |Filter(p, xs)| + |Filter(notP, xs)| == |xs|
  {
    if xs != [] {
      FilterSplit(p, notP, xs[1..]);
    }
  }

  /** Two successive filters may be swapped; any order of several filters therefore gives one result. */
  lemma FilterCommute<T(!new)>(p: T -> bool, q: T -> bool, xs: seq<T>)
    ensures Filter(p, Filter(q, xs)) == Filter(q, Filter(p, xs))
  {
    var pq := (x: T) => p(x) && q(x);
    var qp := (x: T) => q(x) && p(x);
    FilterFuse(p, q, pq, xs);
    FilterFuse(q, p, qp, xs);
    FilterSameChoice(pq, qp, xs);
  }

  /** Filters by two predicates that agree everywhere give the same list. */
  lemma {:induction false} FilterSameChoice<T(!new)>(p: T -> bool, q: T -> bool, xs: seq<T>)
    requires forall x :: p(x) == q(x)
    ensures Filter(p, xs) == Filter(q, xs)
  {
    if xs != [] {
      FilterSameChoice(p, q, xs[1..]);
    }
  }
}
