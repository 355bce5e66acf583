/** Order-preserving filtering and counting over sequences, the shape of the branch matching loops. */
module SeqFilter {

  /** The elements of `xs` that satisfy `p`, in their order in `xs`. */
  function Filter<T>(xs: seq<T>, p: T -> bool): seq<T>
    decreases |xs|
  {
    if xs == [] then []
    else
      var last := xs[|xs| - 1];
      Filter(xs[..|xs| - 1], p) + (if p(last) then [last] else [])
  }

  /** How many elements of `xs` satisfy `p`. */
  function Count<T>(xs: seq<T>, p: T -> bool): nat
    decreases |xs|
  {
    if xs == [] then 0
    else Count(xs[..|xs| - 1], p) + (if p(xs[|xs| - 1]) then 1 else 0)
  }

  /** Filtering keeps every copy of an element that satisfies `p` and drops every other one. */
  lemma {:induction false} FilterCount<T>(xs: seq<T>, p: T -> bool, x: T)
    ensures multiset(Filter(xs, p))[x] == if p(x) then multiset(xs)[x] else 0
    decreases |xs|
  {
    if xs != [] {
      var init := xs[..|xs| - 1];
      FilterCount(init, p, x);
      assert xs == init + [xs[|xs| - 1]];
    }
  }

  lemma {:induction false} CountPositiveIfSome<T>(xs: seq<T>, p: T -> bool, i: nat)
    requires i < |xs| && p(xs[i])
    ensures Count(xs, p) > 0
    decreases |xs|
  {
    var init := xs[..|xs| - 1];
    if i < |init| {
      assert p(init[i]);
      CountPositiveIfSome(init, p, i);
    }
  }

  lemma {:induction false} SomeIfCountPositive<T>(xs: seq<T>, p: T -> bool) returns (i: nat)
    requires Count(xs, p) > 0
    ensures i < |xs| && p(xs[i])
    decreases |xs|
  {
    var init := xs[..|xs| - 1];
    if p(xs[|xs| - 1]) {
      i := |xs| - 1;
    } else {
      i := SomeIfCountPositive(init, p);
      assert xs[i] == init[i];
    }
  }

  /** The count is positive exactly when some element satisfies `p`. */
  lemma CountPositive<T>(xs: seq<T>, p: T -> bool)
    ensures Count(xs, p) > 0 <==> exists i :: 0 <= i < |xs| && p(xs[i])
  {
    if Count(xs, p) > 0 {
      var i := SomeIfCountPositive(xs, p);
    }
    if exists i :: 0 <= i < |xs| && p(xs[i]) {
      var i :| 0 <= i < |xs| && p(xs[i]);
      CountPositiveIfSome(xs, p, i);
    }
  }
}
