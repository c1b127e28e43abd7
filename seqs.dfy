/** `Array.prototype.filter` over sequences, and what it preserves. */
module Seqs {

  /** The elements of `xs` that satisfy `keep`, in their original order. */
  function Filter<T(!new)>(xs: seq<T>, keep: T -> bool): (r: seq<T>)
    ensures |r| <= |xs|
    ensures forall i :: 0 <= i < |r| ==> keep(r[i])
  {
    if xs == [] then [] else (if keep(xs[0]) then [xs[0]] else []) + Filter(xs[1..], keep)
  }

  /** Every kept value occurs as often as before; every other value is gone. */
  lemma {:induction false} FilterCounts<T(!new)>(xs: seq<T>, keep: T -> bool, x: T)
    ensures multiset(Filter(xs, keep))[x] == if keep(x) then multiset(xs)[x] else 0
  {
    if xs != [] {
      assert xs == [xs[0]] + xs[1..];
      FilterCounts(xs[1..], keep, x);
    }
  }

  /** Filtering distributes over concatenation: relative order is kept. */
  lemma {:induction false} FilterAppend<T(!new)>(a: seq<T>, b: seq<T>, keep: T -> bool)
    ensures Filter(a + b, keep) == Filter(a, keep) + Filter(b, keep)
  {
    if a == [] {
      assert a + b == b;
    } else {
      assert (a + b)[1..] == a[1..] + b;
      FilterAppend(a[1..], b, keep);
    }
  }

  /** A sequence whose every element is kept is left unchanged. */
  lemma {:induction false} FilterKeepsAll<T(!new)>(xs: seq<T>, keep: T -> bool)
    requires forall i :: 0 <= i < |xs| ==> keep(xs[i])
    ensures Filter(xs, keep) == xs
  {
    if xs != [] {
      FilterKeepsAll(xs[1..], keep);
    }
  }

  /** A sequence none of whose elements is kept filters to nothing. */
  lemma {:induction false} FilterDropsAll<T(!new)>(xs: seq<T>, keep: T -> bool)
    requires forall i :: 0 <= i < |xs| ==> !keep(xs[i])
    ensures Filter(xs, keep) == []
  {
    if xs != [] {
      FilterDropsAll(xs[1..], keep);
    }
  }
}
