/**
 * The public projects gallery: the technology tabs taken from all project
 * tags, the tag and text filters, and the grouping of the visible projects
 * into rows of three.
 */
module ProjectsGallery {
  import opened Common
  import opened Text
  import opened Seqs
  import opened Ordering
  import opened UseProjects

  /** The filter value that selects every project. */
  const AllFilter: string := "all"

  /** Some project carries the tag. */
  predicate TagUsed(projects: seq<Project>, tag: string) {
    exists p :: p in projects && tag in p.tags
  }

  /** `availableTechnologies`: every tag of every project added to a set (which
      keeps first-insertion order), then `Array.from(...).sort()`. The result
      holds each used tag exactly once, strictly ascending. */
  method AvailableTechnologies(projects: seq<Project>) returns (techs: seq<string>)
    ensures forall t :: t in techs <==> TagUsed(projects, t)
    ensures StrictlyAscending(techs)
    ensures Distinct(techs)
  {
    var techSet: seq<string> := [];
    var i := 0;
    while i < |projects|
      invariant 0 <= i <= |projects|
      invariant Distinct(techSet)
      invariant forall t :: t in techSet <==> TagUsed(projects[..i], t)
    {
      var tags := projects[i].tags;
      var j := 0;
      while j < |tags|
        invariant 0 <= j <= |tags|
        invariant Distinct(techSet)
        invariant forall t :: t in techSet <==> TagUsed(projects[..i], t) || t in tags[..j]
      {
        if tags[j] !in techSet {
          techSet := techSet + [tags[j]];
        }
        assert tags[..j + 1] == tags[..j] + [tags[j]];
        j := j + 1;
      }
      assert tags[..j] == tags;
      assert projects[..i + 1] == projects[..i] + [projects[i]];
      i := i + 1;
    }
    assert projects[..i] == projects;
    techs := SortStrings(techSet);
    DistinctPermutation(techSet, techs);
    AscendingDistinctStrict(techs);
    assert forall t :: t in techs <==> t in multiset(techs);
  }

  /** At most five technology tabs, the first of the sorted list. */
  function TechnologyTabs(techs: seq<string>): (tabs: seq<string>)
    ensures |tabs| == Min(5, |techs|)
    ensures tabs == techs[..|tabs|]
  {
    Take(techs, 5)
  }

  /** The tab filter: `'all'`, or a project with that exact tag. */
  predicate MatchesTag(selectedFilter: string, p: Project) {
    selectedFilter == AllFilter || selectedFilter in p.tags
  }

  /** The text filter: skipped for a blank query, otherwise the lower-cased
      (untrimmed) query must occur in the lower-cased title or short description. */
  predicate MatchesQuery(searchQuery: string, p: Project) {
    Trim(searchQuery) == ""
    || Contains(Lower(p.title), Lower(searchQuery))
    || Contains(Lower(p.short_description), Lower(searchQuery))
  }

  /** `filteredProjects`: the tag filter, then the text filter. */
  function FilteredProjects(projects: seq<Project>, selectedFilter: string, searchQuery: string): (r: seq<Project>)
    ensures IsSubsequence(r, projects)
    ensures forall p :: p in r <==> p in projects && MatchesTag(selectedFilter, p) && MatchesQuery(searchQuery, p)
    ensures selectedFilter == AllFilter && Trim(searchQuery) == "" ==> r == projects
  {
    var byTag := if selectedFilter != AllFilter then Filter(projects, p => MatchesTag(selectedFilter, p)) else projects;
    var byText := if Trim(searchQuery) != "" then Filter(byTag, p => MatchesQuery(searchQuery, p)) else byTag;
    SubsequenceReflexive(projects);
    SubsequenceReflexive(byTag);
    SubsequenceTransitive(byText, byTag, projects);
    byText
  }

  /** `projectRows`: slices of three taken at offsets 0, 3, 6, ... */
  method ProjectRows(filtered: seq<Project>) returns (rows: seq<seq<Project>>)
    ensures |rows| == (|filtered| + 2) / 3
    ensures forall r :: 0 <= r < |rows| ==> rows[r] == filtered[3 * r..Min(3 * r + 3, |filtered|)]
    ensures forall r :: 0 <= r < |rows| ==> 1 <= |rows[r]| <= 3 && (r < |rows| - 1 ==> |rows[r]| == 3)
    ensures Flatten(rows) == filtered
  {
    rows := [];
    var i := 0;
    while i < |filtered|
      invariant 0 <= i <= |filtered| + 2
      invariant i == 3 * |rows|
      invariant i >= |filtered| ==> |rows| == (|filtered| + 2) / 3
      invariant i < |filtered| ==> |rows| == i / 3
      invariant forall r :: 0 <= r < |rows| ==> rows[r] == filtered[3 * r..Min(3 * r + 3, |filtered|)]
      invariant Flatten(rows) == filtered[..Min(i, |filtered|)]
    {
      var row := filtered[i..Min(i + 3, |filtered|)];
      assert filtered[..Min(i + 3, |filtered|)] == filtered[..i] + row;
      rows := rows + [row];
      i := i + 3;
    }
    assert filtered[..Min(i, |filtered|)] == filtered;
  }

  /** `rowIndex * 3 + projectIndex` is the card's position in the filtered list. */
  lemma AbsoluteIndex(filtered: seq<Project>, rows: seq<seq<Project>>, r: int, k: int)
    requires |rows| == (|filtered| + 2) / 3
    requires forall q :: 0 <= q < |rows| ==> rows[q] == filtered[3 * q..Min(3 * q + 3, |filtered|)]
    requires 0 <= r < |rows| && 0 <= k < |rows[r]|
    ensures 3 * r + k < |filtered| && rows[r][k] == filtered[3 * r + k]
  {
  }
}
