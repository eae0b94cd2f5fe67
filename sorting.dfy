/**
 * `Array.prototype.sort()` without a comparator on strings: ascending in the
 * order of JavaScript's `<` on strings, which compares character by
 * character and ranks a proper prefix first.
 */
module Sorting {

  /** `a < b` on strings. */
  predicate Less(a: string, b: string)
    decreases |a|
  {
    if b == [] then false
    else if a == [] then true
    else if a[0] != b[0] then a[0] < b[0]
    else Less(a[1..], b[1..])
  }

  lemma {:induction false} LessIrreflexive(a: string)
    ensures !Less(a, a)
    decreases |a|
  {
    if a != [] {
      LessIrreflexive(a[1..]);
    }
  }

  lemma {:induction false} LessTransitive(a: string, b: string, c: string)
    requires Less(a, b) && Less(b, c)
    ensures Less(a, c)
    decreases |a|
  {
    if a != [] && a[0] == b[0] && b[0] == c[0] {
      LessTransitive(a[1..], b[1..], c[1..]);
    }
  }

  /** Two different strings are ordered one way or the other, never both. */
  lemma {:induction false} LessTotal(a: string, b: string)
    ensures a != b ==> Less(a, b) || Less(b, a)
    ensures !(Less(a, b) && Less(b, a))
    decreases |a|
  {
    if a != [] && b != [] && a[0] == b[0] {
      LessTotal(a[1..], b[1..]);
      assert a == [a[0]] + a[1..] && b == [b[0]] + b[1..];
    }
  }

  /** `a` sorts no later than `b`. */
  predicate LessEq(a: string, b: string) {
    !Less(b, a)
  }

  lemma LessEqTransitive(a: string, b: string, c: string)
    requires LessEq(a, b) && LessEq(b, c)
    ensures LessEq(a, c)
  {
    LessTotal(a, b);
    LessTotal(b, c);
    if a != b && b != c {
      LessTransitive(a, b, c);
      LessTotal(a, c);
    }
  }

  predicate Sorted(s: seq<string>) {
    forall i, j :: 0 <= i < j < |s| ==> LessEq(s[i], s[j])
  }

  predicate NoDuplicates(s: seq<string>) {
    forall i, j :: 0 <= i < j < |s| ==> s[i] != s[j]
  }

  /** Strictly ascending. */
  predicate Increasing(s: seq<string>) {
    forall i, j :: 0 <= i < j < |s| ==> Less(s[i], s[j])
  }

  /** A sorted sequence without repetitions is strictly ascending, and conversely. */
  lemma IncreasingIff(s: seq<string>)
    ensures Increasing(s) <==> Sorted(s) && NoDuplicates(s)
  {
    forall i, j | 0 <= i < j < |s| ensures Less(s[i], s[j]) <==> LessEq(s[i], s[j]) && s[i] != s[j] {
      LessTotal(s[i], s[j]);
      if s[i] == s[j] {
        LessIrreflexive(s[i]);
      }
    }
  }

  /** Inserts `x` before the first element it sorts no later than. */
  function Insert(x: string, s: seq<string>): (r: seq<string>)
    ensures multiset(r) == multiset(s) + multiset{x}
  {
    if s == [] then [x]
    else if LessEq(x, s[0]) then
      assert s == [s[0]] + s[1..];
      [x] + s
    else
      assert s == [s[0]] + s[1..];
      [s[0]] + Insert(x, s[1..])
  }

  /** An element of an insertion is the inserted value or an element of the sequence. */
  lemma InsertMembers(x: string, s: seq<string>, y: string)
    ensures y in Insert(x, s) <==> y == x || y in s
  {
    assert y in Insert(x, s) <==> y in multiset(Insert(x, s));
  }

  /** Insertion into a sorted sequence keeps it sorted. */
  lemma {:induction false} InsertSorted(x: string, s: seq<string>)
    requires Sorted(s)
    ensures Sorted(Insert(x, s))
  {
    if s == [] {
    } else if LessEq(x, s[0]) {
      forall j | 0 < j < |s| ensures LessEq(x, s[j]) {
        LessEqTransitive(x, s[0], s[j]);
      }
    } else {
      var rest := Insert(x, s[1..]);
      InsertSorted(x, s[1..]);
      LessTotal(x, s[0]);
      forall k | 0 <= k < |rest| ensures LessEq(s[0], rest[k]) {
        InsertMembers(x, s[1..], rest[k]);
        if rest[k] != x {
          var m :| 0 <= m < |s[1..]| && s[1..][m] == rest[k];
          assert s[m + 1] == rest[k];
        }
      }
      var r := [s[0]] + rest;
      forall i, j | 0 <= i < j < |r| ensures LessEq(r[i], r[j]) {
        if i > 0 {
          assert r[i] == rest[i - 1] && r[j] == rest[j - 1];
        }
      }
    }
  }

  /** Inserting a new value into a sequence without repetitions keeps it without repetitions. */
  lemma {:induction false} InsertNoDuplicates(x: string, s: seq<string>)
    requires x !in s && NoDuplicates(s)
    ensures NoDuplicates(Insert(x, s))
  {
    if s == [] {
    } else if LessEq(x, s[0]) {
      ConsNoDuplicates(x, s);
    } else {
      NoDuplicatesTail(s);
      assert x !in s[1..] && s[0] != x by {
        assert s[0] in s && forall y :: y in s[1..] ==> y in s;
      }
      InsertNoDuplicates(x, s[1..]);
      InsertMembers(x, s[1..], s[0]);
      ConsNoDuplicates(s[0], Insert(x, s[1..]));
    }
  }

  /** Putting a new value in front of a sequence without repetitions keeps it without repetitions. */
  lemma ConsNoDuplicates(y: string, t: seq<string>)
    requires y !in t && NoDuplicates(t)
    ensures NoDuplicates([y] + t)
  {
    var r := [y] + t;
    forall i, j | 0 <= i < j < |r| ensures r[i] != r[j] {
      if i == 0 {
        assert r[j] == t[j - 1] && t[j - 1] in t;
      } else {
        assert r[i] == t[i - 1] && r[j] == t[j - 1];
      }
    }
  }

  lemma NoDuplicatesTail(s: seq<string>)
    requires s != [] && NoDuplicates(s)
    ensures NoDuplicates(s[1..]) && s[0] !in s[1..]
  {
    forall k | 0 <= k < |s| - 1 ensures s[1..][k] != s[0] {
      assert s[1..][k] == s[k + 1];
    }
  }

  /** The sorted rearrangement, by insertion. */
  function SortStrings(s: seq<string>): (r: seq<string>)
    ensures Sorted(r)
    ensures multiset(r) == multiset(s)
    ensures NoDuplicates(s) ==> NoDuplicates(r)
  {
    if s == [] then []
    else
      var rest := SortStrings(s[1..]);
      assert s == [s[0]] + s[1..];
      InsertSorted(s[0], rest);
      if NoDuplicates(s) then
        NoDuplicatesTail(s);
        assert s[0] in rest <==> s[0] in multiset(s[1..]);
        InsertNoDuplicates(s[0], rest);
        Insert(s[0], rest)
      else
        Insert(s[0], rest)
  }

  /**
   * Sorting has one answer: two sorted rearrangements of the same elements
   * are equal, so any sorting algorithm yields `SortStrings`.
   */
  lemma {:induction false} SortedUnique(a: seq<string>, b: seq<string>)
    requires Sorted(a) && Sorted(b) && multiset(a) == multiset(b)
    ensures a == b
    decreases |a|
  {
    if a != [] {
      SameFirst(a, b);
      assert a == [a[0]] + a[1..] && b == [b[0]] + b[1..];
      assert multiset(a[1..]) == multiset(b[1..]) by {
        forall y ensures multiset(a[1..])[y] == multiset(b[1..])[y] {
          assert multiset(a)[y] == multiset(b)[y];
        }
      }
      SortedUnique(a[1..], b[1..]);
    }
  }

  /** Two sorted rearrangements of the same elements start with the same element. */
  lemma SameFirst(a: seq<string>, b: seq<string>)
    requires Sorted(a) && Sorted(b) && multiset(a) == multiset(b) && a != []
    ensures b != [] && a[0] == b[0]
  {
    assert |multiset(a)| == |a| && |multiset(b)| == |b|;
    assert a[0] in multiset(b) && b[0] in multiset(a);
    var i :| 0 <= i < |b| && b[i] == a[0];
    var j :| 0 <= j < |a| && a[j] == b[0];
    LessIrreflexive(a[0]);
    assert LessEq(b[0], b[i]) by {
      if i == 0 {
        LessIrreflexive(b[0]);
      }
    }
    assert LessEq(a[0], a[j]) by {
      if j == 0 {
        LessIrreflexive(a[0]);
      }
    }
    LessTotal(a[0], b[0]);
  }

  /** Sorting keeps exactly the elements it was given. */
  lemma SortKeepsElements(s: seq<string>, x: string)
    ensures x in SortStrings(s) <==> x in s
  {
    assert x in SortStrings(s) <==> x in multiset(SortStrings(s));
  }
}
