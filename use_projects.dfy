/**
 * The projects hook: the database row with its joined skills becomes the
 * record the gallery and cards display.
 */
module UseProjects {
  import opened Common
  import opened Database

  const PlaceholderCover: string := "/placeholder-project.jpg"

  /** The project as the UI sees it; `projectType` is the source's `type`. */
  datatype Project = Project(
    id: string,
    title: string,
    short_description: string,
    description: string,
    tags: seq<string>,
    cover_image: string,
    demo_url: Option<string>,
    demoUrl: Option<string>,
    repo_url: Option<string>,
    githubUrl: Option<string>,
    is_featured: bool,
    slug: string,
    full_description: Option<string>,
    projectType: string,
    status: string)

  /** The names of the joined skills, in order. */
  function SkillNames(skills: seq<DbSkill>): (names: seq<string>)
    ensures |names| == |skills|
    ensures forall i :: 0 <= i < |skills| ==> names[i] == skills[i].name
  {
    if skills == [] then [] else [skills[0].name] + SkillNames(skills[1..])
  }

  /** `transformProject`: copies and aliases, a default cover, `undefined` for a
      blank full description, type `web`, and a status inferred from the
      featured flag. */
  function TransformProject(db: DbProject, skills: Option<seq<DbSkill>>): (p: Project)
    ensures p.id == db.id && p.title == db.title && p.slug == db.slug && p.is_featured == db.is_featured
    ensures p.description == db.short_description && p.short_description == db.short_description
    ensures p.demoUrl == db.demo_url && p.demo_url == db.demo_url
    ensures p.githubUrl == db.repo_url && p.repo_url == db.repo_url
    ensures skills.None? ==> p.tags == []
    ensures skills.Some? ==> p.tags == SkillNames(skills.value)
    ensures Truthy(db.cover_image_url) ==> p.cover_image == db.cover_image_url.value
    ensures !Truthy(db.cover_image_url) ==> p.cover_image == PlaceholderCover
    ensures p.full_description.None? <==> !Truthy(db.full_description)
    ensures p.full_description.Some? ==> p.full_description == db.full_description
    ensures p.projectType == "web"
    ensures p.status == (if db.is_featured then "published" else "draft")
  {
    Project(
      db.id, db.title, db.short_description, db.short_description,
      if skills.Some? then SkillNames(skills.value) else [],
      OrElse(db.cover_image_url, PlaceholderCover),
      db.demo_url, db.demo_url, db.repo_url, db.repo_url,
      db.is_featured, db.slug,
      if Truthy(db.full_description) then db.full_description else None,
      "web",
      if db.is_featured then "published" else "draft")
  }

  /** The featured flag can be read back from the inferred status. */
  lemma StatusRecoversFeatured(db: DbProject, skills: Option<seq<DbSkill>>)
    ensures TransformProject(db, skills).status == "published" <==> db.is_featured
    ensures TransformProject(db, skills).status in {"published", "draft"}
  {
  }

  /** The join's `project_skills` entries with the null skills dropped, in order;
      a missing join gives no skills. */
  function FlattenProjectSkills(links: Option<seq<Option<DbSkill>>>): (skills: seq<DbSkill>)
    ensures links.None? ==> skills == []
    ensures links.Some? ==> forall s :: s in skills <==> Some(s) in links.value
    ensures links.Some? ==> |skills| <= |links.value|
  {
    match links
    case None => []
    case Some(ls) => PresentSkills(ls)
  }

  /** The skills present in a list of nullable entries. */
  function PresentSkills(links: seq<Option<DbSkill>>): (skills: seq<DbSkill>)
    ensures forall s :: s in skills <==> Some(s) in links
    ensures |skills| <= |links|
    ensures (forall i :: 0 <= i < |links| ==> links[i].Some?) ==> |skills| == |links|
  {
    if links == [] then []
    else if links[0].Some? then [links[0].value] + PresentSkills(links[1..])
    else PresentSkills(links[1..])
  }

  /** Dropping nulls keeps order: it distributes over concatenation. */
  lemma {:induction false} PresentSkillsAppend(a: seq<Option<DbSkill>>, b: seq<Option<DbSkill>>)
    ensures PresentSkills(a + b) == PresentSkills(a) + PresentSkills(b)
  {
    if a == [] {
      assert a + b == b;
    } else {
      assert (a + b)[1..] == a[1..] + b;
      PresentSkillsAppend(a[1..], b);
    }
  }
}
