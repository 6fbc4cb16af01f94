/**
 * The lookup helpers over the mock skills and projects: find by id, filter
 * projects by a technology's name or category, and the de-duplicated list of
 * every technology the projects use. The mock arrays are parameters.
 */
module MockData {
  import opened Common
  import opened Seqs
  import opened Ordering
  import opened PortfolioTypes

  /** The index of the first element whose id is `id`, if any (`find` by id). */
  function FindById<T>(xs: seq<T>, idOf: T -> string, id: string): (r: Option<nat>)
    ensures r.None? <==> forall i :: 0 <= i < |xs| ==> idOf(xs[i]) != id
    ensures r.Some? ==> (r.value < |xs| && idOf(xs[r.value]) == id
                         && forall j :: 0 <= j < r.value ==> idOf(xs[j]) != id)
  {
    if xs == [] then None
    else if idOf(xs[0]) == id then Some(0)
    else match FindById(xs[1..], idOf, id)
      case None => None
      case Some(i) => Some(i + 1)
  }

  /** `getSkillById`: the first skill with that id, or none. */
  function GetSkillById(skills: seq<TechSkill>, id: string): (r: Option<TechSkill>)
    ensures r.None? <==> forall s :: s in skills ==> s.id != id
    ensures r.Some? ==> r.value in skills && r.value.id == id
    ensures r.Some? ==> (exists i :: 0 <= i < |skills| && skills[i] == r.value
                                   && forall j :: 0 <= j < i ==> skills[j].id != id)
  {
    match FindById(skills, (s: TechSkill) => s.id, id)
    case None => None
    case Some(i) => Some(skills[i])
  }

  /** `getProjectById`: the first project with that id, or none. */
  function GetProjectById(projects: seq<MockProject>, id: string): (r: Option<MockProject>)
    ensures r.None? <==> forall p :: p in projects ==> p.id != id
    ensures r.Some? ==> r.value in projects && r.value.id == id
    ensures r.Some? ==> (exists i :: 0 <= i < |projects| && projects[i] == r.value
                                   && forall j :: 0 <= j < i ==> projects[j].id != id)
  {
    match FindById(projects, (p: MockProject) => p.id, id)
    case None => None
    case Some(i) => Some(projects[i])
  }

  /** The project uses a technology with exactly this name. */
  predicate UsesTechnologyNamed(p: MockProject, name: string) {
    exists t :: t in p.technologies && t.name == name
  }

  /** The project uses a technology of this category. */
  predicate UsesCategory(p: MockProject, c: TechCategory) {
    exists t :: t in p.technologies && t.category == c
  }

  /** `getProjectsByTechnology`. */
  function GetProjectsByTechnology(projects: seq<MockProject>, name: string): (r: seq<MockProject>)
    ensures IsSubsequence(r, projects)
    ensures forall p :: p in r <==> p in projects && UsesTechnologyNamed(p, name)
  {
    Filter(projects, p => UsesTechnologyNamed(p, name))
  }

  /** `getProjectsBySkillCategory`. */
  function GetProjectsBySkillCategory(projects: seq<MockProject>, c: TechCategory): (r: seq<MockProject>)
    ensures IsSubsequence(r, projects)
    ensures forall p :: p in r <==> p in projects && UsesCategory(p, c)
  {
    Filter(projects, p => UsesCategory(p, c))
  }

  /** Every technology of every project, project by project, in order. */
  function AllTechnologies(projects: seq<MockProject>): seq<TechSkill> {
    if projects == [] then []
    else AllTechnologies(projects[..|projects| - 1]) + projects[|projects| - 1].technologies
  }

  /** The ids of a technology list. */
  function Ids(techs: seq<TechSkill>): (ids: seq<string>)
    ensures |ids| == |techs| && forall i :: 0 <= i < |techs| ==> ids[i] == techs[i].id
  {
    if techs == [] then [] else Ids(techs[..|techs| - 1]) + [techs[|techs| - 1].id]
  }

  /** The distinct ids, in order of first occurrence (the key order of a `Map`). */
  function FirstOccurrenceIds(techs: seq<TechSkill>): (ids: seq<string>)
    ensures Distinct(ids)
    ensures forall id :: id in ids <==> id in Ids(techs)
  {
    if techs == [] then []
    else
      var ids := FirstOccurrenceIds(techs[..|techs| - 1]);
      var t := techs[|techs| - 1];
      if t.id in ids then ids else ids + [t.id]
  }

  /** The last technology with the id (the value a `Map` keeps after repeated `set`s). */
  function LastWithId(techs: seq<TechSkill>, id: string): (r: Option<TechSkill>)
    ensures r.Some? ==> r.value in techs && r.value.id == id
    ensures r.None? <==> id !in Ids(techs)
  {
    if techs == [] then None
    else if techs[|techs| - 1].id == id then Some(techs[|techs| - 1])
    else LastWithId(techs[..|techs| - 1], id)
  }

  /** The state of the `Map` after `set`ting every technology of `techs` in
      order: its keys in insertion order, and under each the last value set. */
  ghost predicate MapAfter(keys: seq<string>, values: map<string, TechSkill>, techs: seq<TechSkill>) {
    && keys == FirstOccurrenceIds(techs)
    && (forall id :: id in values <==> id in keys)
    && (forall id :: id in values ==> Some(values[id]) == LastWithId(techs, id))
  }

  /** One `map.set(tech.id, tech)`: a new key goes to the end, and the value
      under the key is replaced. */
  lemma SetStep(keys: seq<string>, values: map<string, TechSkill>, techs: seq<TechSkill>, tech: TechSkill)
    requires MapAfter(keys, values, techs)
    ensures MapAfter(if tech.id in values then keys else keys + [tech.id], values[tech.id := tech], techs + [tech])
  {
    var next := techs + [tech];
    assert next[..|next| - 1] == techs && next[|next| - 1] == tech;
  }

  lemma SliceSnoc<T>(a: seq<T>, b: seq<T>, j: nat)
    requires j < |b|
    ensures a + b[..j + 1] == (a + b[..j]) + [b[j]]
  {
    assert b[..j + 1] == b[..j] + [b[j]];
  }

  /** One project's inner `forEach`: `set` each of its technologies. */
  method SetAll(keys: seq<string>, values: map<string, TechSkill>, ghost before: seq<TechSkill>, techs: seq<TechSkill>)
    returns (keys': seq<string>, values': map<string, TechSkill>)
    requires MapAfter(keys, values, before)
    ensures MapAfter(keys', values', before + techs)
  {
    keys', values' := keys, values;
    var j := 0;
    assert before + techs[..0] == before;
    while j < |techs|
      invariant 0 <= j <= |techs|
      invariant MapAfter(keys', values', before + techs[..j])
    {
      var tech := techs[j];
      ghost var seen := before + techs[..j];
      SetStep(keys', values', seen, tech);
      SliceSnoc(before, techs, j);
      if tech.id !in values' {
        keys' := keys' + [tech.id];
      }
      values' := values'[tech.id := tech];
      j := j + 1;
    }
    assert techs[..j] == techs;
  }

  /** `getAllUsedTechnologies`: every technology of every project `set` into a
      `Map` by id, then the map's values. Keys keep their first-insertion
      position; each value is the last technology set under its key. */
  method GetAllUsedTechnologies(projects: seq<MockProject>) returns (r: seq<TechSkill>)
    ensures Ids(r) == FirstOccurrenceIds(AllTechnologies(projects))
    ensures forall k :: 0 <= k < |r| ==> Some(r[k]) == LastWithId(AllTechnologies(projects), r[k].id)
  {
    var keys: seq<string> := [];
    var values: map<string, TechSkill> := map[];
    var i := 0;
    while i < |projects|
      invariant 0 <= i <= |projects|
      invariant MapAfter(keys, values, AllTechnologies(projects[..i]))
    {
      assert projects[..i + 1][..i] == projects[..i];
      keys, values := SetAll(keys, values, AllTechnologies(projects[..i]), projects[i].technologies);
      i := i + 1;
    }
    assert projects[..i] == projects;
    r := ValuesInOrder(keys, values);
  }

  /** `Array.from(map.values())`: the value under each key, in key order. */
  method ValuesInOrder(keys: seq<string>, values: map<string, TechSkill>) returns (r: seq<TechSkill>)
    requires forall id :: id in keys ==> id in values && values[id].id == id
    ensures |r| == |keys| && Ids(r) == keys
    ensures forall k :: 0 <= k < |r| ==> r[k] == values[keys[k]]
  {
    r := [];
    var k := 0;
    while k < |keys|
      invariant 0 <= k <= |keys|
      invariant |r| == k && Ids(r) == keys[..k]
      invariant forall m :: 0 <= m < k ==> r[m] == values[keys[m]]
    {
      assert keys[..k + 1] == keys[..k] + [keys[k]];
      r := r + [values[keys[k]]];
      assert r[..|r| - 1] == r[..k];
      k := k + 1;
    }
    assert keys[..k] == keys;
  }

  /** No two technologies in the result share an id. */
  lemma AllUsedTechnologiesDistinct(projects: seq<MockProject>, r: seq<TechSkill>)
    requires Ids(r) == FirstOccurrenceIds(AllTechnologies(projects))
    ensures forall i, j :: 0 <= i < j < |r| ==> r[i].id != r[j].id
  {
    var ids := Ids(r);
    assert Distinct(ids);
    forall i, j | 0 <= i < j < |r|
      ensures r[i].id != r[j].id
    {
      assert ids[i] == r[i].id && ids[j] == r[j].id;
    }
  }

  /** A technology's id is among the ids of a list holding it. */
  lemma IdOfMember(techs: seq<TechSkill>, t: TechSkill)
    requires t in techs
    ensures t.id in Ids(techs)
  {
    var i :| 0 <= i < |techs| && techs[i] == t;
    assert Ids(techs)[i] == t.id;
  }

  /** An id among the ids of a list belongs to one of its technologies. */
  lemma MemberOfIds(r: seq<TechSkill>, id: string)
    requires id in Ids(r)
    ensures exists k :: 0 <= k < |r| && r[k].id == id
  {
    var k :| 0 <= k < |Ids(r)| && Ids(r)[k] == id;
    assert r[k].id == id;
  }

  /** Every technology used by some project has its id in the result. */
  lemma AllUsedTechnologiesCover(projects: seq<MockProject>, r: seq<TechSkill>, t: TechSkill)
    requires Ids(r) == FirstOccurrenceIds(AllTechnologies(projects))
    requires t in AllTechnologies(projects)
    ensures exists k :: 0 <= k < |r| && r[k].id == t.id
  {
    IdOfMember(AllTechnologies(projects), t);
    MemberOfIds(r, t.id);
  }
}
