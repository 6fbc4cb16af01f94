/**
 * The public project card: the technology icon lookup, the colour scheme
 * chosen by project type, the status badge and the four-chip technology row.
 */
module ProjectCard {
  import opened Common
  import opened Text
  import opened Seqs
  import opened JsObject
  import opened Database
  import opened UseProjects

  /** The placeholder icon table, keyed by normalised technology name. */
  const TechIcons: map<string, string> := map[
    "react" := "⚛️",
    "typescript" := "📘",
    "nextjs" := "▲",
    "tailwind" := "🎨",
    "framer" := "🎭",
    "node" := "🟢",
    "express" := "🚂",
    "mongodb" := "🍃",
    "postgresql" := "🐘",
    "default" := "🔧"
  ]

  const DefaultTechIcon: string := "🔧"

  predicate NotSpace(c: char) { !IsSpace(c) }

  /** The lookup key: the name lower-cased with every whitespace run removed. */
  function TechIconKey(tech: string): (key: string)
    ensures |key| <= |tech|
    ensures forall i :: 0 <= i < |key| ==> !IsSpace(key[i]) && !IsUpper(key[i])
  {
    var lowered := Lower(tech);
    assert forall c :: c in lowered ==> !IsUpper(c);
    var key := Filter(lowered, NotSpace);
    assert forall i :: 0 <= i < |key| ==> key[i] in key;
    key
  }

  /** A name that is already lower-case and has no whitespace is its own key. */
  lemma NormalisedNameIsKey(s: string)
    requires forall i :: 0 <= i < |s| ==> !IsSpace(s[i]) && !IsUpper(s[i])
    ensures TechIconKey(s) == s
  {
    LowerNoUpper(s);
  }

  /** Capitals do not matter. */
  lemma TechIconKeyIgnoresCase(s: string)
    ensures TechIconKey(Lower(s)) == TechIconKey(s)
  {
    LowerIdempotent(s);
  }

  /** A whitespace character anywhere in the name does not matter. */
  lemma TechIconKeyIgnoresSpace(a: string, c: char, b: string)
    requires IsSpace(c)
    ensures TechIconKey(a + [c] + b) == TechIconKey(a + b)
  {
    var la, lb := Lower(a), Lower(b);
    LowerAppend(a + [c], b);
    LowerAppend(a, [c]);
    LowerAppend(a, b);
    assert Lower([c]) == [c];
    assert Filter([c], NotSpace) == [];
    FilterAppend(la + [c], lb, NotSpace);
    FilterAppend(la, [c], NotSpace);
    FilterAppend(la, lb, NotSpace);
  }

  /** Normalising an already normalised key changes nothing, so names that
      differ only in case and spacing share one icon. */
  lemma TechIconKeyIdempotent(tech: string)
    ensures TechIconKey(TechIconKey(tech)) == TechIconKey(tech)
  {
    var key := TechIconKey(tech);
    LowerNoUpper(key);
  }

  /** `getTechIcon` as written: an indexed read of the object literal, so a
      key such as `constructor` reaches `Object.prototype` and yields a
      function instead of an icon. */
  function GetTechIconAsWritten(tech: string): (r: JsValue)
    ensures !Inherited(TechIconKey(tech)) ==> r.JsString?
  {
    GetOr(TechIcons, TechIconKey(tech), TechIcons["default"])
  }

  lemma ConstructorNotATechIcon()
    ensures "constructor" !in TechIcons && "constructor" in InheritedMethods
  {
  }

  /** A technology named "constructor" gets a function, not an icon. */
  lemma TechIconAsWrittenConstructor()
    ensures GetTechIconAsWritten("constructor") == JsFunction
  {
    var key := "constructor";
    assert forall i :: 0 <= i < |key| ==> !IsSpace(key[i]) && !IsUpper(key[i]);
    NormalisedNameIsKey(key);
    ConstructorNotATechIcon();
  }

  /** `getTechIcon` restricted to the table's own keys: a known key gives its
      icon, anything else the wrench. */
  function GetTechIcon(tech: string): (icon: string)
    ensures TechIconKey(tech) in TechIcons ==> icon == TechIcons[TechIconKey(tech)]
    ensures TechIconKey(tech) !in TechIcons ==> icon == DefaultTechIcon
    ensures icon != ""
  {
    GetOwnOr(TechIcons, TechIconKey(tech), TechIcons["default"])
  }

  /** The two readings agree on every name whose key is not inherited. */
  lemma TechIconCorrectedAgrees(tech: string)
    requires !Inherited(TechIconKey(tech))
    ensures GetTechIconAsWritten(tech) == JsString(GetTechIcon(tech))
  {
    GetOrAgreesOffPrototype(TechIcons, TechIconKey(tech), TechIcons["default"]);
  }

  /** The large faded icon over the cover: the first tag's icon, or the
      default one when there is no (non-empty) first tag. */
  function HeroIcon(tags: seq<string>): (icon: string)
    ensures tags != [] && tags[0] != "" ==> icon == GetTechIcon(tags[0])
    ensures !(tags != [] && tags[0] != "") ==> icon == DefaultTechIcon
  {
    var first := if tags != [] && tags[0] != "" then tags[0] else "default";
    NormalisedNameIsKey("default");
    GetTechIcon(first)
  }

  datatype ColorScheme = WebColors | MobileColors | FullstackColors

  /** The colour scheme for a project type; an unknown type uses the web colours. */
  function ColorsFor(projectType: string): (c: ColorScheme)
    ensures c == MobileColors <==> projectType == "mobile"
    ensures c == FullstackColors <==> projectType == "fullstack"
    ensures projectType !in {"mobile", "fullstack"} ==> c == WebColors
  {
    if projectType == "mobile" then MobileColors
    else if projectType == "fullstack" then FullstackColors
    else WebColors
  }

  /** Every project coming from the projects hook is drawn in the web colours. */
  lemma HookProjectsUseWebColors(db: DbProject, skills: Option<seq<DbSkill>>)
    ensures ColorsFor(TransformProject(db, skills).projectType) == WebColors
  {
  }

  const LiveLabel: string := "✨ Live"
  const InProgressLabel: string := "🚧 In Progress"

  /** The status badge. */
  function StatusLabel(status: string): (badge: string)
    ensures badge == LiveLabel <==> status == "published"
    ensures badge == InProgressLabel <==> status != "published"
  {
    if status == "published" then LiveLabel else InProgressLabel
  }

  /** The progress bar is drawn only for drafts. */
  predicate ShowsProgressBar(status: string) { status == "draft" }

  /** A project from the hook shows the live badge exactly when it is featured,
      and the progress bar exactly when it is not. */
  lemma StatusFollowsFeatured(db: DbProject, skills: Option<seq<DbSkill>>)
    ensures StatusLabel(TransformProject(db, skills).status) == LiveLabel <==> db.is_featured
    ensures ShowsProgressBar(TransformProject(db, skills).status) <==> !db.is_featured
  {
    StatusRecoversFeatured(db, skills);
  }

  /** The technology row: at most four chips, each with its icon, and a
      `+k` badge for the rest. */
  function TechnologyRow(tags: seq<string>): (r: ChipRow<(string, string)>)
    ensures |r.shown| == Min(4, |tags|)
    ensures forall i :: 0 <= i < |r.shown| ==> r.shown[i] == (GetTechIcon(tags[i]), tags[i])
    ensures r.more.Some? <==> |tags| > 4
    ensures r.more.Some? ==> r.more.value == |tags| - 4
  {
    var chips := Chips(tags, 4);
    ChipRow(seq(|chips.shown|, i requires 0 <= i < |chips.shown| => (GetTechIcon(chips.shown[i]), chips.shown[i])), chips.more)
  }
}
