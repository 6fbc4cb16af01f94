/**
 * The admin project table: the search box, the featured toggle's write, the
 * three-chip tag column and the featured counter in the footer.
 */
module AdminProjects {
  import opened Common
  import opened Text
  import opened Seqs
  import opened UseProjects

  /** The row matches when the lower-cased term occurs in the lower-cased
      title or in some lower-cased tag. */
  predicate MatchesSearch(searchTerm: string, p: Project) {
    Contains(Lower(p.title), Lower(searchTerm))
    || exists tag :: tag in p.tags && Contains(Lower(tag), Lower(searchTerm))
  }

  /** `filteredProjects`. */
  function FilterProjects(projects: seq<Project>, searchTerm: string): (r: seq<Project>)
    ensures IsSubsequence(r, projects)
    ensures forall p :: p in r <==> p in projects && MatchesSearch(searchTerm, p)
  {
    Filter(projects, p => MatchesSearch(searchTerm, p))
  }

  /** An empty search box lists every project. */
  lemma EmptySearchKeepsAll(projects: seq<Project>)
    ensures FilterProjects(projects, "") == projects
  {
    forall i | 0 <= i < |projects|
      ensures MatchesSearch("", projects[i])
    {
      ContainsEmpty(Lower(projects[i].title));
    }
  }

  /** The update `handleToggleFeatured` sends for one row. */
  datatype FeaturedUpdate = FeaturedUpdate(id: string, is_featured: bool)

  function ToggleFeaturedWrite(projectId: string, currentValue: bool): (u: FeaturedUpdate)
    ensures u.id == projectId
    ensures u.is_featured != currentValue
  {
    FeaturedUpdate(projectId, !currentValue)
  }

  /** Clicking the star twice (after the refetch) restores the original flag. */
  lemma ToggleFeaturedTwice(projectId: string, currentValue: bool)
    ensures ToggleFeaturedWrite(projectId, ToggleFeaturedWrite(projectId, currentValue).is_featured).is_featured == currentValue
  {
  }

  /** The tag column: at most three chips, then a `+k` badge. */
  function TagColumn(tags: seq<string>): (r: ChipRow<string>)
    ensures |r.shown| == Min(3, |tags|) && r.shown == tags[..|r.shown|]
    ensures |tags| <= 3 ==> r.shown == tags && r.more == None
    ensures |tags| > 3 ==> r.more == Some(|tags| - 3)
  {
    Chips(tags, 3)
  }

  predicate IsFeatured(p: Project) { p.is_featured }

  /** `projects.filter(p => p.is_featured).length`. */
  function FeaturedCount(projects: seq<Project>): nat {
    Count(projects, IsFeatured)
  }

  /** The featured counter never exceeds the total; it is zero exactly when no
      project is featured, and the total exactly when all are. */
  lemma FeaturedCountBounds(projects: seq<Project>)
    ensures FeaturedCount(projects) <= |projects|
    ensures FeaturedCount(projects) == 0 <==> forall p :: p in projects ==> !p.is_featured
    ensures FeaturedCount(projects) == |projects| <==> forall p :: p in projects ==> p.is_featured
  {
    FilterKeepsAll(projects, IsFeatured);
    var featured := Filter(projects, IsFeatured);
    if featured != [] {
      assert featured[0] in projects && featured[0].is_featured;
    }
  }
}
