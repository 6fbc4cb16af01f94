/**
 * The admin layout's navigation logic: breadcrumbs built from the current
 * path, and the rule deciding which sidebar link is highlighted.
 */
module DashboardLayout {
  import opened Common
  import opened Text
  import opened Seqs

  datatype Crumb = Crumb(name: string, path: string)

  const RootCrumb: Crumb := Crumb("Admin", "/admin/dashboard")

  /** `pathname.split('/').filter(Boolean)`: the non-empty pieces between
      slashes, in order, each as often as it occurs. */
  function Segments(pathname: string): (segs: seq<string>)
    ensures forall i :: 0 <= i < |segs| ==> segs[i] != "" && '/' !in segs[i]
    ensures IsSubsequence(segs, Split(pathname, '/'))
    ensures forall p :: p in segs <==> p in Split(pathname, '/') && p != ""
    ensures forall p :: p != "" ==> multiset(segs)[p] == multiset(Split(pathname, '/'))[p]
  {
    var pieces := Split(pathname, '/');
    var segs := Filter(pieces, (s: string) => s != "");
    assert forall i :: 0 <= i < |segs| ==> segs[i] in pieces;
    assert forall p :: p != "" ==> multiset(segs)[p] == multiset(pieces)[p] by {
      forall p | p != "" { FilterMultiset(pieces, (s: string) => s != "", p); }
    }
    segs
  }

  /** An absolute path built from non-empty segments gives those segments back. */
  lemma SegmentsOfPath(segs: seq<string>)
    requires forall i :: 0 <= i < |segs| ==> segs[i] != "" && '/' !in segs[i]
    ensures Segments("/" + Join(segs, "/")) == segs
  {
    var path := "/" + Join(segs, "/");
    assert path[0] == '/' && path[1..] == Join(segs, "/");
    var pieces := Split(path, '/');
    assert pieces == [[]] + Split(Join(segs, "/"), '/');
    var nonEmpty := (s: string) => s != "";
    if segs == [] {
      assert pieces == [[], []];
      assert Filter(pieces, nonEmpty) == [];
    } else {
      SplitJoin(segs, '/');
      assert pieces == [[]] + segs;
      assert pieces[1..] == segs;
      assert Filter(pieces, nonEmpty) == Filter(segs, nonEmpty);
    }
  }

  /** The title of a crumb: the segment's dash-separated words capitalised and joined by spaces. */
  function CrumbName(segment: string): string {
    CapitalizeWords(segment, " ")
  }

  /** The link of crumb `k`: `/admin/` and the segments after the first, up to segment `k`. */
  function CrumbPath(segs: seq<string>, k: int): string
    requires 1 <= k < |segs|
  {
    "/admin/" + Join(segs[1..k + 1], "/")
  }

  /** `generateBreadcrumbs`: the root crumb, then one crumb per segment after the first. */
  method GenerateBreadcrumbs(pathname: string) returns (crumbs: seq<Crumb>)
    ensures var segs := Segments(pathname);
      |crumbs| == Max(1, |segs|)
      && crumbs[0] == RootCrumb
      && forall k :: 1 <= k < |crumbs| ==> crumbs[k] == Crumb(CrumbName(segs[k]), CrumbPath(segs, k))
  {
    var paths := Segments(pathname);
    crumbs := [RootCrumb];
    if |paths| > 1 {
      var rest := paths[1..];
      var index := 0;
      while index < |rest|
        invariant 0 <= index <= |rest|
        invariant |crumbs| == index + 1 && crumbs[0] == RootCrumb
        invariant forall k :: 1 <= k < |crumbs| ==> crumbs[k] == Crumb(CrumbName(paths[k]), CrumbPath(paths, k))
      {
        var segment := rest[index];
        var name := CapitalizeWords(segment, " ");
        var path := "/admin/" + Join(paths[1..index + 2], "/");
        crumbs := crumbs + [Crumb(name, path)];
        index := index + 1;
      }
    }
  }

  /** Each crumb's link extends the previous crumb's link by one segment. */
  lemma CrumbPathExtends(segs: seq<string>, k: int)
    requires 2 <= k < |segs|
    ensures CrumbPath(segs, k) == CrumbPath(segs, k - 1) + "/" + segs[k]
  {
    assert segs[1..k + 1] == segs[1..k] + [segs[k]];
    JoinSnoc(segs[1..k], segs[k], "/");
  }

  /** The first crumb's link holds exactly its own segment. */
  lemma FirstCrumbPath(segs: seq<string>)
    requires 2 <= |segs|
    ensures CrumbPath(segs, 1) == "/admin/" + segs[1]
  {
  }

  /** Crumb titles keep every character of the segment except that dashes become spaces. */
  lemma CrumbNameShape(segment: string)
    ensures '-' !in CrumbName(segment)
    ensures |CrumbName(segment)| == |segment|
  {
    CapitalizeWordsMatchesRef(segment, " ");
    CapitalizeWordsRefNoDash(segment, " ", true);
    CapitalizeWordsRefLength(segment, " ", true);
  }

  /** A sidebar entry. */
  datatype NavItem = NavItem(name: string, href: string, exact: bool)

  const Navigation: seq<NavItem> := [
    NavItem("Dashboard", "/admin/dashboard", true),
    NavItem("Proyectos", "/admin/projects", false),
    NavItem("Habilidades", "/admin/skills", false),
    NavItem("Certificaciones", "/admin/certifications", false)
  ]

  /** The highlight rule shared by the desktop and mobile sidebars: equality
      for an exact entry, a prefix match for the others. */
  function IsActive(pathname: string, item: NavItem): (active: bool)
    ensures item.exact ==> (active <==> pathname == item.href)
    ensures !item.exact ==> (active <==> StartsWith(pathname, item.href))
  {
    if item.exact then pathname == item.href else StartsWith(pathname, item.href)
  }

  /** A non-exact entry stays highlighted on every page below it. */
  lemma ActiveBelow(item: NavItem, rest: string)
    requires !item.exact
    ensures IsActive(item.href + rest, item)
  {
    assert (item.href + rest)[..|item.href|] == item.href;
  }

  /** A highlighted entry's link is a prefix of the path. */
  lemma ActivePrefix(pathname: string, item: NavItem, k: int)
    requires IsActive(pathname, item) && 0 <= k < |item.href|
    ensures k < |pathname| && pathname[k] == item.href[k]
  {
    if !item.exact {
      assert pathname[..|item.href|][k] == pathname[k];
    }
  }

  /** At any path at most one sidebar entry is highlighted: all four links
      differ in their eighth character. */
  lemma AtMostOneActive(pathname: string, i: int, j: int)
    requires 0 <= i < j < |Navigation|
    ensures !(IsActive(pathname, Navigation[i]) && IsActive(pathname, Navigation[j]))
  {
    var a, b := Navigation[i], Navigation[j];
    if IsActive(pathname, a) && IsActive(pathname, b) {
      ActivePrefix(pathname, a, 7);
      ActivePrefix(pathname, b, 7);
      assert false;
    }
  }
}
