/**
 * The skills graph view: icon names for the recruiter grid, the skills
 * grouped by category and sorted by proficiency, the force-graph nodes and
 * the links that chain each category, and the summary counters.
 */
module SkillsGraph {
  import opened Common
  import opened Text
  import opened Seqs
  import opened PortfolioTypes
  import opened SkillSort

  const FallbackIcon: string := "Code2"

  /** The kebab-case icon name converted to the PascalCase export name. */
  function PascalCase(iconName: string): string {
    CapitalizeWords(iconName, "")
  }

  /** The PascalCase name has no dashes and is the icon name minus its dashes in length. */
  lemma PascalCaseShape(iconName: string)
    ensures '-' !in PascalCase(iconName)
    ensures |PascalCase(iconName)| == |iconName| - Occurrences(iconName, '-')
  {
    CapitalizeWordsMatchesRef(iconName, "");
    CapitalizeWordsRefNoDash(iconName, "", true);
    CapitalizeWordsRefLength(iconName, "", true);
  }

  /** `getIcon`: the icon library's export with the PascalCase name, or `Code2`
      when the library has none (`exported` is the library's export names). */
  function GetIcon(iconName: string, exported: set<string>): (r: string)
    ensures PascalCase(iconName) in exported ==> r == PascalCase(iconName)
    ensures PascalCase(iconName) !in exported ==> r == FallbackIcon
    ensures r in exported || r == FallbackIcon
  {
    var pascal := PascalCase(iconName);
    if pascal in exported then pascal else FallbackIcon
  }

  /** The three category lists of `skillsByCategory`. */
  datatype Grouped = Grouped(language: seq<TechSkill>, framework: seq<TechSkill>, tool: seq<TechSkill>)

  /** A fresh array holding `s`, sorted in place, read back. */
  method SortedCopy(s: seq<TechSkill>) returns (r: seq<TechSkill>)
    ensures r == SortDesc(s)
  {
    var arr := new TechSkill[|s|](i requires 0 <= i < |s| => s[i]);
    assert arr[..] == s;
    SortByProficiency(arr);
    r := arr[..];
  }

  /** `skillsByCategory`: each skill pushed onto its category's list, then each
      list sorted by proficiency, descending. */
  method SkillsByCategory(skills: seq<TechSkill>) returns (g: Grouped)
    ensures g.language == SortDesc(OfCategory(skills, Language))
    ensures g.framework == SortDesc(OfCategory(skills, Framework))
    ensures g.tool == SortDesc(OfCategory(skills, Tool))
  {
    var language, framework, tool := [], [], [];
    var i := 0;
    while i < |skills|
      invariant 0 <= i <= |skills|
      invariant language == OfCategory(skills[..i], Language)
      invariant framework == OfCategory(skills[..i], Framework)
      invariant tool == OfCategory(skills[..i], Tool)
    {
      assert skills[..i + 1][..i] == skills[..i];
      var skill := skills[i];
      match skill.category {
        case Language => language := language + [skill];
        case Framework => framework := framework + [skill];
        case Tool => tool := tool + [skill];
      }
      i := i + 1;
    }
    assert skills[..i] == skills;
    language := SortedCopy(language);
    framework := SortedCopy(framework);
    tool := SortedCopy(tool);
    g := Grouped(language, framework, tool);
  }

  /** Sorting a category's list keeps exactly that category's skills. */
  lemma SortedGroupMembers(skills: seq<TechSkill>, c: TechCategory)
    ensures forall s :: s in SortDesc(OfCategory(skills, c)) <==> s in skills && s.category == c
    ensures SortedDesc(SortDesc(OfCategory(skills, c)))
  {
    var group := OfCategory(skills, c);
    SortDescPermutes(group);
    SortDescSorted(group);
    forall s
      ensures s in SortDesc(group) <==> s in group
    {
      assert s in SortDesc(group) <==> s in multiset(SortDesc(group));
    }
  }

  /** The force-graph node of a skill (the size, a float, is not modelled). */
  datatype GraphNode = GraphNode(id: string, name: string, color: string, category: TechCategory)

  datatype GraphLink = GraphLink(source: string, target: string)

  function CategoryColor(c: TechCategory): string {
    match c
    case Language => "#06B6D4"
    case Framework => "#EC4899"
    case Tool => "#10B981"
  }

  /** One node per skill, in skill order, carrying the skill's id. */
  function Nodes(skills: seq<TechSkill>): (nodes: seq<GraphNode>)
    ensures |nodes| == |skills|
    ensures forall i :: 0 <= i < |skills| ==>
      nodes[i] == GraphNode(skills[i].id, skills[i].name, CategoryColor(skills[i].category), skills[i].category)
  {
    if skills == [] then []
    else [GraphNode(skills[0].id, skills[0].name, CategoryColor(skills[0].category), skills[0].category)] + Nodes(skills[1..])
  }

  /** The links joining each entry of a list to the next. */
  predicate IsChain(list: seq<TechSkill>, links: seq<GraphLink>) {
    |links| == Max(0, |list| - 1)
    && forall i :: 0 <= i < |links| ==> links[i] == GraphLink(list[i].id, list[i + 1].id)
  }

  /** The `for` loop that chains one category's list. */
  method ChainLinks(list: seq<TechSkill>) returns (links: seq<GraphLink>)
    ensures IsChain(list, links)
  {
    links := [];
    var i := 0;
    while i < |list| - 1
      invariant 0 <= i <= Max(0, |list| - 1)
      invariant |links| == i
      invariant forall k :: 0 <= k < i ==> links[k] == GraphLink(list[k].id, list[k + 1].id)
    {
      links := links + [GraphLink(list[i].id, list[i + 1].id)];
      i := i + 1;
    }
  }

  /** `graphData.links`: the chains of the language, framework and tool lists, in that order. */
  method GraphLinks(g: Grouped) returns (links: seq<GraphLink>)
    ensures var a, b := Max(0, |g.language| - 1), Max(0, |g.framework| - 1);
      |links| == a + b + Max(0, |g.tool| - 1)
      && IsChain(g.language, links[..a])
      && IsChain(g.framework, links[a..a + b])
      && IsChain(g.tool, links[a + b..])
  {
    var l1 := ChainLinks(g.language);
    var l2 := ChainLinks(g.framework);
    var l3 := ChainLinks(g.tool);
    links := l1 + l2 + l3;
    assert links[..|l1|] == l1;
    assert links[|l1|..|l1| + |l2|] == l2;
    assert links[|l1| + |l2|..] == l3;
  }

  /** Links number the skills minus the categories that have any (the two
      summary counters "Total Skills" and "Categorías"). */
  lemma LinkCount(skills: seq<TechSkill>, g: Grouped, links: seq<GraphLink>)
    requires |g.language| == |OfCategory(skills, Language)|
    requires |g.framework| == |OfCategory(skills, Framework)|
    requires |g.tool| == |OfCategory(skills, Tool)|
    requires |links| == Max(0, |g.language| - 1) + Max(0, |g.framework| - 1) + Max(0, |g.tool| - 1)
    ensures |links| == |skills| - |CategoriesUsed(skills)|
  {
    CategoryPartition(skills);
    CategoriesCounter(skills);
  }

  predicate IsExpert(s: TechSkill) { s.proficiency >= 90 }

  /** The "Experto (90%+)" counter: the number of skills at 90 or above. It is
      zero exactly when no skill reaches 90 and the total exactly when all do. */
  function ExpertCount(skills: seq<TechSkill>): (n: nat)
    ensures n <= |skills|
    ensures n == 0 <==> forall i :: 0 <= i < |skills| ==> !IsExpert(skills[i])
    ensures n == |skills| <==> forall i :: 0 <= i < |skills| ==> IsExpert(skills[i])
  {
    FilterKeepsAll(skills, IsExpert);
    var experts := Filter(skills, IsExpert);
    assert forall i :: 0 <= i < |skills| && IsExpert(skills[i]) ==> skills[i] in experts;
    assert experts != [] ==> experts[0] in skills && IsExpert(experts[0]);
    Count(skills, IsExpert)
  }

  /** One more skill raises the expert counter by one exactly when it is at 90 or above. */
  lemma ExpertCountSnoc(skills: seq<TechSkill>, s: TechSkill)
    ensures ExpertCount(skills + [s]) == ExpertCount(skills) + (if s.proficiency >= 90 then 1 else 0)
  {
    CountSnoc(skills, s, IsExpert);
  }

  /** `new Set(skills.map(s => s.category))`: each category once, in order of first appearance. */
  function CategoriesUsed(skills: seq<TechSkill>): (cats: seq<TechCategory>)
    ensures forall c :: c in cats <==> OfCategory(skills, c) != []
  {
    if skills == [] then []
    else
      var prefix := CategoriesUsed(skills[..|skills| - 1]);
      var c := skills[|skills| - 1].category;
      if c in prefix then prefix else prefix + [c]
  }

  /** The number of categories whose list is non-empty. */
  function NonEmptyCount(skills: seq<TechSkill>): nat {
    (if OfCategory(skills, Language) != [] then 1 else 0)
    + (if OfCategory(skills, Framework) != [] then 1 else 0)
    + (if OfCategory(skills, Tool) != [] then 1 else 0)
  }

  /** The "Categorías" counter equals the number of non-empty category lists, so at most three. */
  lemma {:induction false} CategoriesCounter(skills: seq<TechSkill>)
    ensures |CategoriesUsed(skills)| == NonEmptyCount(skills)
    ensures |CategoriesUsed(skills)| <= 3
  {
    if skills != [] {
      var prefix := skills[..|skills| - 1];
      CategoriesCounter(prefix);
    }
  }
}
