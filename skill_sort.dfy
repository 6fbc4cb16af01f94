/**
 * `skills.sort((a, b) => b.proficiency - a.proficiency)`: JavaScript's sort
 * is stable, so the result is fully determined — the stable descending
 * order by proficiency — and it is computed here by an in-place insertion
 * sort proved against that order.
 */
module SkillSort {
  import opened PortfolioTypes

  /** `x` inserted after every element whose proficiency is at least its own
      (so after equal ones: stability). */
  function InsertDesc(s: seq<TechSkill>, x: TechSkill): (r: seq<TechSkill>)
    ensures |r| == |s| + 1
  {
    if s == [] || s[|s| - 1].proficiency >= x.proficiency then s + [x]
    else InsertDesc(s[..|s| - 1], x) + [s[|s| - 1]]
  }

  /** Insertion adds exactly `x`. */
  lemma {:induction false} InsertDescPermutes(s: seq<TechSkill>, x: TechSkill)
    ensures multiset(InsertDesc(s, x)) == multiset(s) + multiset{x}
  {
    if !(s == [] || s[|s| - 1].proficiency >= x.proficiency) {
      InsertDescPermutes(s[..|s| - 1], x);
      assert s == s[..|s| - 1] + [s[|s| - 1]];
    }
  }

  /** The stable descending order by proficiency. */
  function SortDesc(s: seq<TechSkill>): (r: seq<TechSkill>)
    ensures |r| == |s|
  {
    if s == [] then [] else InsertDesc(SortDesc(s[..|s| - 1]), s[|s| - 1])
  }

  /** The order is a rearrangement of the input. */
  lemma {:induction false} SortDescPermutes(s: seq<TechSkill>)
    ensures multiset(SortDesc(s)) == multiset(s)
  {
    if s != [] {
      SortDescPermutes(s[..|s| - 1]);
      InsertDescPermutes(SortDesc(s[..|s| - 1]), s[|s| - 1]);
      assert s == s[..|s| - 1] + [s[|s| - 1]];
    }
  }

  /** No skill has a higher proficiency than one before it. */
  predicate SortedDesc(s: seq<TechSkill>) {
    forall i, j :: 0 <= i < j < |s| ==> s[i].proficiency >= s[j].proficiency
  }

  lemma {:induction false} InsertDescSorted(s: seq<TechSkill>, x: TechSkill)
    requires SortedDesc(s)
    ensures SortedDesc(InsertDesc(s, x))
    ensures forall i :: 0 <= i < |InsertDesc(s, x)| ==>
      InsertDesc(s, x)[i] == x || InsertDesc(s, x)[i] in s
  {
    if !(s == [] || s[|s| - 1].proficiency >= x.proficiency) {
      InsertDescSorted(s[..|s| - 1], x);
    }
  }

  /** The order is sorted descending. */
  lemma {:induction false} SortDescSorted(s: seq<TechSkill>)
    ensures SortedDesc(SortDesc(s))
  {
    if s != [] {
      SortDescSorted(s[..|s| - 1]);
      InsertDescSorted(SortDesc(s[..|s| - 1]), s[|s| - 1]);
    }
  }

  /** An already sorted list is left as it is. */
  lemma {:induction false} SortDescOfSorted(s: seq<TechSkill>)
    requires SortedDesc(s)
    ensures SortDesc(s) == s
  {
    if s != [] {
      var init := s[..|s| - 1];
      assert SortedDesc(init);
      SortDescOfSorted(init);
      assert s == init + [s[|s| - 1]];
    }
  }

  /** Sorting twice is sorting once. */
  lemma SortDescIdempotent(s: seq<TechSkill>)
    ensures SortDesc(SortDesc(s)) == SortDesc(s)
  {
    SortDescSorted(s);
    SortDescOfSorted(SortDesc(s));
  }

  /** Inserting into a list whose tail is all below `x` passes over that tail. */
  lemma {:induction false} InsertDescSplit(s: seq<TechSkill>, k: int, x: TechSkill)
    requires 0 <= k <= |s|
    requires forall m :: k <= m < |s| ==> s[m].proficiency < x.proficiency
    ensures InsertDesc(s, x) == InsertDesc(s[..k], x) + s[k..]
    decreases |s| - k
  {
    if k < |s| {
      var init := s[..|s| - 1];
      var last := s[|s| - 1];
      assert InsertDesc(s, x) == InsertDesc(init, x) + [last];
      assert init[..k] == s[..k];
      InsertDescSplit(init, k, x);
      assert InsertDesc(init, x) == InsertDesc(s[..k], x) + init[k..];
      assert s[k..] == init[k..] + [last];
    } else {
      assert s[..k] == s;
    }
  }

  /** Moves `a[i]` left past the larger-than-it prefix entries: the prefix
      `a[..i + 1]` becomes the insertion of `a[i]` into `a[..i]`. */
  method InsertAt(a: array<TechSkill>, i: int)
    requires 0 <= i < a.Length
    modifies a
    ensures a[..i + 1] == InsertDesc(old(a[..i]), old(a[i]))
    ensures a[i + 1..] == old(a[i + 1..])
  {
    ghost var sorted := a[..i];
    var x := a[i];
    var j := i;
    while j > 0 && a[j - 1].proficiency < x.proficiency
      invariant 0 <= j <= i
      invariant forall m :: 0 <= m < j ==> a[m] == sorted[m]
      invariant forall m :: j < m <= i ==> a[m] == sorted[m - 1]
      invariant forall m :: i < m < a.Length ==> a[m] == old(a[m])
      invariant forall m :: j <= m < i ==> sorted[m].proficiency < x.proficiency
    {
      a[j] := a[j - 1];
      j := j - 1;
    }
    a[j] := x;
    assert j == 0 || sorted[j - 1].proficiency >= x.proficiency;
    assert InsertDesc(sorted[..j], x) == sorted[..j] + [x];
    InsertDescSplit(sorted, j, x);
    assert a[..i + 1] == sorted[..j] + [x] + sorted[j..];
  }

  /** Sorts `a` in place into the stable descending order of the skills it held. */
  method SortByProficiency(a: array<TechSkill>)
    modifies a
    ensures a[..] == SortDesc(old(a[..]))
  {
    ghost var input := a[..];
    var i := 0;
    while i < a.Length
      invariant 0 <= i <= a.Length
      invariant a[..i] == SortDesc(input[..i])
      invariant a[i..] == input[i..]
    {
      assert input[..i + 1][..i] == input[..i];
      assert a[i] == input[i];
      InsertAt(a, i);
      i := i + 1;
    }
    assert a[..] == a[..i];
    assert input[..i] == input;
  }
}
