/**
 * JavaScript's default `Array.prototype.sort()` order on strings, stated as
 * lexicographic order on characters (the code-unit comparison, over ASCII),
 * and a sort for string lists proved against it.
 */
module Ordering {

  /** `a` sorts strictly before `b`: a proper prefix, or smaller at the first difference. */
  predicate LexLess(a: string, b: string)
    decreases |a|
  {
    if a == [] then b != []
    else if b == [] then false
    else if a[0] != b[0] then a[0] < b[0]
    else LexLess(a[1..], b[1..])
  }

  predicate LexLessEq(a: string, b: string) { a == b || LexLess(a, b) }

  lemma {:induction false} LexLessIrreflexive(a: string)
    ensures !LexLess(a, a)
    decreases |a|
  {
    if a != [] {
      LexLessIrreflexive(a[1..]);
    }
  }

  /** Two different strings are ordered one way or the other, and never both. */
  lemma {:induction false} LexLessTotal(a: string, b: string)
    ensures a != b ==> LexLess(a, b) || LexLess(b, a)
    ensures !(LexLess(a, b) && LexLess(b, a))
    decreases |a|
  {
    if a != [] && b != [] && a[0] == b[0] {
      LexLessTotal(a[1..], b[1..]);
      if a != b {
        assert a == [a[0]] + a[1..] && b == [b[0]] + b[1..];
      }
    }
  }

  lemma {:induction false} LexLessTransitive(a: string, b: string, c: string)
    requires LexLess(a, b) && LexLess(b, c)
    ensures LexLess(a, c)
    decreases |a|
  {
    if a != [] && a[0] == b[0] && b[0] == c[0] {
      LexLessTransitive(a[1..], b[1..], c[1..]);
    }
  }

  /** Each string is no greater than the next. */
  predicate Ascending(s: seq<string>) {
    forall i :: 0 <= i < |s| - 1 ==> LexLessEq(s[i], s[i + 1])
  }

  /** Each string is strictly smaller than the next. */
  predicate StrictlyAscending(s: seq<string>) {
    forall i :: 0 <= i < |s| - 1 ==> LexLess(s[i], s[i + 1])
  }

  /** No string occurs twice. */
  predicate Distinct<T(==)>(s: seq<T>) {
    forall i, j :: 0 <= i < j < |s| ==> s[i] != s[j]
  }

  /** `x` placed before the first element it does not sort after. */
  function InsertSorted(s: seq<string>, x: string): (r: seq<string>)
    ensures multiset(r) == multiset(s) + multiset{x}
    ensures |r| == |s| + 1
    ensures r[0] == x || (s != [] && r[0] == s[0])
  {
    if s == [] then [x]
    else if LexLessEq(x, s[0]) then [x] + s
    else
      assert s == [s[0]] + s[1..];
      [s[0]] + InsertSorted(s[1..], x)
  }

  lemma {:induction false} InsertSortedAscending(s: seq<string>, x: string)
    requires Ascending(s)
    ensures Ascending(InsertSorted(s, x))
  {
    if s != [] && !LexLessEq(x, s[0]) {
      InsertSortedAscending(s[1..], x);
      LexLessTotal(x, s[0]);
      var r := InsertSorted(s[1..], x);
      assert LexLessEq(s[0], r[0]);
    }
  }

  /** `Array.from(xs).sort()`: an insertion sort into a fresh list. */
  method SortStrings(xs: seq<string>) returns (r: seq<string>)
    ensures Ascending(r)
    ensures multiset(r) == multiset(xs)
  {
    r := [];
    var i := 0;
    while i < |xs|
      invariant 0 <= i <= |xs|
      invariant Ascending(r)
      invariant multiset(r) == multiset(xs[..i])
    {
      InsertSortedAscending(r, xs[i]);
      assert xs[..i + 1] == xs[..i] + [xs[i]];
      r := InsertSorted(r, xs[i]);
      i := i + 1;
    }
    assert xs[..i] == xs;
  }

  /** In a list without repeats every element occurs once. */
  lemma {:induction false} DistinctOccursOnce<T>(s: seq<T>, x: T)
    requires Distinct(s)
    ensures multiset(s)[x] <= 1
  {
    if s != [] {
      assert s == [s[0]] + s[1..];
      DistinctOccursOnce(s[1..], x);
      if x == s[0] {
        assert x !in s[1..];
      }
    }
  }

  /** A rearrangement of a list without repeats has no repeats. */
  lemma DistinctPermutation<T>(s: seq<T>, t: seq<T>)
    requires Distinct(s) && multiset(t) == multiset(s)
    ensures Distinct(t)
  {
    forall i, j | 0 <= i < j < |t|
      ensures t[i] != t[j]
    {
      if t[i] == t[j] {
        assert t == t[..j] + t[j..];
        assert t[i] in t[..j] && t[j] in t[j..];
        assert multiset(t)[t[i]] == multiset(t[..j])[t[i]] + multiset(t[j..])[t[i]];
        DistinctOccursOnce(s, t[i]);
      }
    }
  }

  /** A non-strictly ascending list without repeats is strictly ascending. */
  lemma AscendingDistinctStrict(s: seq<string>)
    requires Ascending(s) && Distinct(s)
    ensures StrictlyAscending(s)
  {
  }

  /** Strictly ascending lists are ordered between any two positions, not just neighbours. */
  lemma {:induction false} StrictlyAscendingPairwise(s: seq<string>, i: int, j: int)
    requires StrictlyAscending(s) && 0 <= i < j < |s|
    ensures LexLess(s[i], s[j])
    decreases j - i
  {
    if j > i + 1 {
      StrictlyAscendingPairwise(s, i + 1, j);
      LexLessTransitive(s[i], s[i + 1], s[j]);
    }
  }
}
