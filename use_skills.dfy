/**
 * The skills hook: a database skill becomes the record the skill views
 * display (logo, colour taken from a Simple Icons URL), plus the two derived
 * hooks that group skills by category and take the top few.
 */
module UseSkills {
  import opened Common
  import opened Text
  import opened Database

  /** The colour used when none can be read from the icon URL. */
  const FallbackColor: string := "#3B82F6"

  const PlaceholderLogoPrefix: string := "https://via.placeholder.com/48?text="

  /** The skill as the UI sees it. */
  datatype Skill = Skill(name: string, logo: string, color: string, category: SkillCategory, proficiency: int)

  /** `#` followed by six hexadecimal digits. */
  predicate IsHexColor(c: string) {
    |c| == 7 && c[0] == '#' && forall i :: 1 <= i < 7 ==> IsHexDigit(c[i])
  }

  /** The URL matches `/\/([A-Fa-f0-9]{6})$/`: it ends in a slash and six hex digits. */
  predicate EndsWithHexSegment(url: string) {
    |url| >= 7 && url[|url| - 7] == '/' && forall i :: |url| - 6 <= i < |url| ==> IsHexDigit(url[i])
  }

  /** `extractColorFromUrl`: the six digits after the final slash, with `#`
      in front and their case kept, or the fallback colour. */
  function ExtractColorFromUrl(url: string): (c: string)
    ensures IsHexColor(c)
    ensures EndsWithHexSegment(url) ==> c == "#" + url[|url| - 6..]
    ensures !EndsWithHexSegment(url) ==> c == FallbackColor
  {
    if EndsWithHexSegment(url) then "#" + url[|url| - 6..] else FallbackColor
  }

  /** A Simple Icons URL built from a slug and a colour gives that colour back. */
  lemma ExtractColorRoundTrip(prefix: string, hex: string)
    requires |hex| == 6 && forall i :: 0 <= i < 6 ==> IsHexDigit(hex[i])
    ensures ExtractColorFromUrl(prefix + "/" + hex) == "#" + hex
  {
    var url := prefix + "/" + hex;
    assert url[|url| - 6..] == hex;
    assert forall i :: |url| - 6 <= i < |url| ==> url[i] == hex[i - (|url| - 6)];
  }

  /** `name.charAt(0)`: the first character, or the empty string. */
  function FirstChar(name: string): (r: string)
    ensures |r| == Min(1, |name|) && r == name[..|r|]
  {
    if name == [] then "" else name[..1]
  }

  /** `transformSkill`. */
  function TransformSkill(db: DbSkill): (s: Skill)
    ensures s.name == db.name && s.category == db.category && s.proficiency == db.proficiency
    ensures IsHexColor(s.color)
    ensures !Truthy(db.icon_url) ==> s.color == FallbackColor && s.logo == PlaceholderLogoPrefix + FirstChar(db.name)
    ensures Truthy(db.icon_url) ==> s.logo == db.icon_url.value && s.color == ExtractColorFromUrl(db.icon_url.value)
  {
    var color := if Truthy(db.icon_url) then ExtractColorFromUrl(db.icon_url.value) else FallbackColor;
    Skill(db.name, OrElse(db.icon_url, PlaceholderLogoPrefix + FirstChar(db.name)), color, db.category, db.proficiency)
  }

  /** The skills of one category, in their original order. */
  function OfCategory(skills: seq<Skill>, c: SkillCategory): (r: seq<Skill>)
    ensures |r| <= |skills|
    ensures forall s :: s in r <==> s in skills && s.category == c
  {
    if skills == [] then []
    else OfCategory(skills[..|skills| - 1], c) + (if skills[|skills| - 1].category == c then [skills[|skills| - 1]] else [])
  }

  /** The group sizes add up to the number of skills: every skill is in exactly one group. */
  lemma {:induction false} CategoriesPartition(skills: seq<Skill>)
    ensures |OfCategory(skills, Frontend)| + |OfCategory(skills, Backend)|
          + |OfCategory(skills, Tools)| + |OfCategory(skills, Soft)| == |skills|
  {
    if skills != [] {
      CategoriesPartition(skills[..|skills| - 1]);
    }
  }

  /** `groups` holds, under each category occurring in `s`, that category's
      skills in order, and no other key. */
  ghost predicate GroupedAs(groups: map<SkillCategory, seq<Skill>>, s: seq<Skill>) {
    && (forall c :: c in groups <==> OfCategory(s, c) != [])
    && (forall c :: c in groups ==> groups[c] == OfCategory(s, c))
  }

  /** One step of the reduce: create the key if missing, then push the skill. */
  lemma GroupStep(groups: map<SkillCategory, seq<Skill>>, s: seq<Skill>, skill: Skill)
    requires GroupedAs(groups, s)
    ensures var g := if skill.category in groups then groups else groups[skill.category := []];
      GroupedAs(g[skill.category := g[skill.category] + [skill]], s + [skill])
  {
    var t := s + [skill];
    assert t[..|t| - 1] == s && t[|t| - 1] == skill;
  }

  /** The `useSkillsByCategory` reduce: an object with a key for each category
      that occurs, holding that category's skills in order. */
  method GroupByCategory(skills: seq<Skill>) returns (groups: map<SkillCategory, seq<Skill>>)
    ensures forall c :: c in groups <==> OfCategory(skills, c) != []
    ensures forall c :: c in groups ==> groups[c] == OfCategory(skills, c)
  {
    groups := map[];
    var i := 0;
    while i < |skills|
      invariant 0 <= i <= |skills|
      invariant GroupedAs(groups, skills[..i])
    {
      var skill := skills[i];
      GroupStep(groups, skills[..i], skill);
      assert skills[..i + 1] == skills[..i] + [skill];
      if skill.category !in groups {
        groups := groups[skill.category := []];
      }
      groups := groups[skill.category := groups[skill.category] + [skill]];
      i := i + 1;
    }
    assert skills[..i] == skills;
  }

  const DefaultTopSkillsLimit: int := 5

  /** `skills.slice(0, limit)`, including JavaScript's reading of a negative
      end as counted from the back. */
  function TopSkills(skills: seq<Skill>, limit: int): (top: seq<Skill>)
    ensures limit >= 0 ==> |top| == Min(limit, |skills|)
    ensures limit < 0 ==> |top| == Max(0, |skills| + limit)
    ensures top == skills[..|top|]
  {
    if limit >= |skills| then skills
    else if limit >= 0 then skills[..limit]
    else skills[..Max(0, |skills| + limit)]
  }
}
