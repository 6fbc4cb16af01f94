/**
 * The portfolio's own record types (the ones the mock data and the skills
 * graph and bento views use): a technical skill with one of three
 * categories, and a project listing the skills it uses.
 */
module PortfolioTypes {

  datatype TechCategory = Language | Framework | Tool

  datatype TechSkill = TechSkill(id: string, name: string, icon: string, category: TechCategory, proficiency: int)

  datatype MockProject = MockProject(
    id: string,
    title: string,
    short_description: string,
    full_description: string,
    cover_image: string,
    technologies: seq<TechSkill>)

  /** The skills of one category, in their original order (`filter` on the category, or the `push`es of a loop). */
  function OfCategory(skills: seq<TechSkill>, c: TechCategory): (r: seq<TechSkill>)
    ensures |r| <= |skills|
    ensures forall s :: s in r <==> s in skills && s.category == c
  {
    if skills == [] then []
    else OfCategory(skills[..|skills| - 1], c) + (if skills[|skills| - 1].category == c then [skills[|skills| - 1]] else [])
  }

  /** Each skill is in the list of its own category and no other, so the list sizes add up. */
  lemma {:induction false} CategoryPartition(skills: seq<TechSkill>)
    ensures |OfCategory(skills, Language)| + |OfCategory(skills, Framework)| + |OfCategory(skills, Tool)| == |skills|
  {
    if skills != [] {
      CategoryPartition(skills[..|skills| - 1]);
    }
  }

  /** Selecting a category keeps order: it distributes over concatenation. */
  lemma {:induction false} OfCategoryAppend(a: seq<TechSkill>, b: seq<TechSkill>, c: TechCategory)
    ensures OfCategory(a + b, c) == OfCategory(a, c) + OfCategory(b, c)
    decreases |b|
  {
    if b == [] {
      assert a + b == a;
    } else {
      var b', last := b[..|b| - 1], b[|b| - 1];
      var tail := if last.category == c then [last] else [];
      assert (a + b)[..|a + b| - 1] == a + b' && (a + b)[|a + b| - 1] == last;
      assert OfCategory(a + b, c) == OfCategory(a + b', c) + tail;
      assert OfCategory(b, c) == OfCategory(b', c) + tail;
      OfCategoryAppend(a, b', c);
    }
  }
}
