/** `Array.prototype.filter` over sequences, and the subsequence relation it establishes. */
module Seqs {

  /** `xs.filter(p)`: the elements of `xs` that satisfy `p`, in their order. */
  function Filter<T(!new)>(xs: seq<T>, p: T -> bool): (r: seq<T>)
    ensures |r| <= |xs|
    ensures forall x :: x in r <==> x in xs && p(x)
  {
    if xs == [] then []
    else (if p(xs[0]) then [xs[0]] else []) + Filter(xs[1..], p)
  }

  /**
   * Filtering keeps every occurrence of an element that satisfies `p` and
   * none of one that does not: the filtered list is not de-duplicated.
   */
  lemma {:induction false} FilterMultiplicity<T(!new)>(xs: seq<T>, p: T -> bool)
    ensures forall x :: multiset(Filter(xs, p))[x] == if p(x) then multiset(xs)[x] else 0
  {
    if xs != [] {
      FilterMultiplicity(xs[1..], p);
      assert xs == [xs[0]] + xs[1..];
    }
  }

  /** `s` can be obtained from `t` by deleting elements, without reordering. */
  predicate Subsequence<T(==)>(s: seq<T>, t: seq<T>)
    decreases |t|
  {
    if s == [] then true
    else if t == [] then false
    else (s[0] == t[0] && Subsequence(s[1..], t[1..])) || Subsequence(s, t[1..])
  }

  /** Filtering only removes elements: it never adds or reorders them. */
  lemma {:induction false} FilterIsSubsequence<T(!new)>(xs: seq<T>, p: T -> bool)
    ensures Subsequence(Filter(xs, p), xs)
  {
    if xs != [] {
      FilterIsSubsequence(xs[1..], p);
      var r := Filter(xs, p);
      if p(xs[0]) {
        assert r[0] == xs[0] && r[1..] == Filter(xs[1..], p);
      } else {
        assert r == Filter(xs[1..], p);
      }
    }
  }

  /** Filtering a concatenation filters each part. */
  lemma {:induction false} FilterConcat<T(!new)>(a: seq<T>, b: seq<T>, p: T -> bool)
    ensures Filter(a + b, p) == Filter(a, p) + Filter(b, p)
  {
    if a != [] {
      assert (a + b)[1..] == a[1..] + b;
      FilterConcat(a[1..], b, p);
    } else {
      assert a + b == b;
    }
  }

  /** A filter that every element passes leaves the sequence as it is. */
  lemma {:induction false} FilterKeepsAll<T(!new)>(xs: seq<T>, p: T -> bool)
    requires forall x :: x in xs ==> p(x)
    ensures Filter(xs, p) == xs
  {
    if xs != [] {
      assert xs[0] in xs;
      assert forall x :: x in xs[1..] ==> x in xs;
      FilterKeepsAll(xs[1..], p);
    }
  }

  /** A filter that no element passes leaves nothing. */
  lemma {:induction false} FilterDropsAll<T(!new)>(xs: seq<T>, p: T -> bool)
    requires forall x :: x in xs ==> !p(x)
    ensures Filter(xs, p) == []
  {
    if xs != [] {
      assert xs[0] in xs;
      assert forall x :: x in xs[1..] ==> x in xs;
      FilterDropsAll(xs[1..], p);
    }
  }

  /** Two filters in a row are one filter by their conjunction. */
  lemma {:induction false} FilterThenFilter<T(!new)>(xs: seq<T>, p: T -> bool, q: T -> bool, both: T -> bool)
    requires forall x :: both(x) == (p(x) && q(x))
    ensures Filter(Filter(xs, p), q) == Filter(xs, both)
  {
    if xs != [] {
      FilterThenFilter(xs[1..], p, q, both);
      var head := if p(xs[0]) then [xs[0]] else [];
      FilterConcat(head, Filter(xs[1..], p), q);
      if p(xs[0]) {
        assert Filter(head, q) == (if q(xs[0]) then [xs[0]] else []) + Filter([], q);
      }
    }
  }

  /** Filters that agree on every element give the same result. */
  lemma FilterSamePredicate<T(!new)>(xs: seq<T>, p: T -> bool, q: T -> bool)
    requires forall x :: p(x) == q(x)
    ensures Filter(xs, p) == Filter(xs, q)
  {
    FilterKeepsAll(Filter(xs, p), q);
    FilterThenFilter(xs, p, q, p);
  }

  /** Filtering twice by the same predicate is filtering once. */
  lemma FilterIdempotent<T(!new)>(xs: seq<T>, p: T -> bool)
    ensures Filter(Filter(xs, p), p) == Filter(xs, p)
  {
    FilterKeepsAll(Filter(xs, p), p);
  }
}
