/**
 * The skills bento view: the three category lists and the "main stack" of
 * the three most proficient skills. The main stack sorts the shared mock
 * skill array in place, so every later reader of that array sees it sorted.
 */
module SkillsBento {
  import opened Common
  import opened Seqs
  import opened PortfolioTypes
  import opened SkillSort

  /** What one render computes. */
  datatype BentoView = BentoView(
    languages: seq<TechSkill>,
    frameworks: seq<TechSkill>,
    tools: seq<TechSkill>,
    mainStack: seq<TechSkill>)

  /** One render: the category filters read the shared array as it is, then the
      array is sorted in place by proficiency and its first three are taken. */
  method Render(mockSkills: array<TechSkill>) returns (view: BentoView)
    modifies mockSkills
    ensures view.languages == OfCategory(old(mockSkills[..]), Language)
    ensures view.frameworks == OfCategory(old(mockSkills[..]), Framework)
    ensures view.tools == OfCategory(old(mockSkills[..]), Tool)
    ensures mockSkills[..] == SortDesc(old(mockSkills[..]))
    ensures view.mainStack == Take(mockSkills[..], 3)
  {
    var current := mockSkills[..];
    var languages := OfCategory(current, Language);
    var frameworks := OfCategory(current, Framework);
    var tools := OfCategory(current, Tool);
    SortByProficiency(mockSkills);
    view := BentoView(languages, frameworks, tools, Take(mockSkills[..], 3));
  }

  /** The main stack of a skill list. */
  function MainStack(skills: seq<TechSkill>): seq<TechSkill> {
    Take(SortDesc(skills), 3)
  }

  /** The main stack has `min(3, n)` skills, in descending proficiency, and no
      skill left out of it is more proficient than its last member. */
  lemma MainStackIsTop(skills: seq<TechSkill>)
    ensures |MainStack(skills)| == Min(3, |skills|)
    ensures SortedDesc(MainStack(skills))
    ensures forall k :: 3 <= k < |skills| ==>
      SortDesc(skills)[k].proficiency <= MainStack(skills)[2].proficiency
    ensures multiset(SortDesc(skills)) == multiset(skills)
  {
    SortDescSorted(skills);
    SortDescPermutes(skills);
  }

  /** Every skill outside the main stack is at most as proficient as each one in it. */
  lemma MainStackDominates(skills: seq<TechSkill>, x: TechSkill)
    requires x in skills && x !in MainStack(skills)
    ensures forall t :: t in MainStack(skills) ==> x.proficiency <= t.proficiency
  {
    var sorted := SortDesc(skills);
    SortDescPermutes(skills);
    SortDescSorted(skills);
    assert x in multiset(sorted);
    var k :| 0 <= k < |sorted| && sorted[k] == x;
    assert k >= |MainStack(skills)|;
  }

  /** A second render finds the array already sorted and leaves it unchanged,
      and it shows the same main stack as the first. */
  lemma SecondRenderStable(skills: seq<TechSkill>)
    ensures SortDesc(SortDesc(skills)) == SortDesc(skills)
    ensures MainStack(SortDesc(skills)) == MainStack(skills)
  {
    SortDescIdempotent(skills);
  }
}
