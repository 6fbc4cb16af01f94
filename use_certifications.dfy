/**
 * The certifications hook: the database row with its optional related
 * project becomes the record the vault and cards display, and the list is
 * summarised into per-category counters.
 */
module UseCertifications {
  import opened Common
  import opened Database

  /** The certification as the UI sees it. */
  datatype Certification = Certification(
    id: string,
    title: string,
    issuer: string,
    issue_date: string,
    category: CertificationCategory,
    credential_url: Option<string>,
    certificate_file_url: Option<string>,
    related_project_id: Option<string>,
    related_project_title: Option<string>)

  /** `transformCertification`: the eight columns copied, plus the joined
      project's title when there is a joined project. */
  function TransformCertification(db: DbCertification, relatedProject: Option<DbProject>): (c: Certification)
    ensures c.id == db.id && c.title == db.title && c.issuer == db.issuer && c.issue_date == db.issue_date
    ensures c.category == db.category && c.credential_url == db.credential_url
    ensures c.certificate_file_url == db.certificate_file_url && c.related_project_id == db.related_project_id
    ensures c.related_project_title.Some? <==> relatedProject.Some?
    ensures relatedProject.Some? ==> c.related_project_title == Some(relatedProject.value.title)
  {
    Certification(db.id, db.title, db.issuer, db.issue_date, db.category, db.credential_url,
      db.certificate_file_url, db.related_project_id,
      if relatedProject.Some? then Some(relatedProject.value.title) else None)
  }

  /** The number of certifications in category `k`. */
  function CategoryCount(certs: seq<Certification>, k: CertificationCategory): (n: nat)
    ensures n <= |certs|
  {
    if certs == [] then 0
    else CategoryCount(certs[..|certs| - 1], k) + (if certs[|certs| - 1].category == k then 1 else 0)
  }

  /** The number of certifications linked to a project (a truthy `related_project_id`). */
  function LinkedCount(certs: seq<Certification>): (n: nat)
    ensures n <= |certs|
  {
    if certs == [] then 0
    else LinkedCount(certs[..|certs| - 1]) + (if Truthy(certs[|certs| - 1].related_project_id) then 1 else 0)
  }

  datatype CategoryCounters = CategoryCounters(event: nat, study: nat, competition: nat)

  datatype CertificationStatistics = CertificationStatistics(total: nat, byCategory: CategoryCounters, withProjects: nat)

  /** The counter for one category. */
  function CounterOf(counters: CategoryCounters, k: CertificationCategory): nat {
    match k
    case Event => counters.event
    case Study => counters.study
    case Competition => counters.competition
  }

  /** The `statistics` memo: counters start at zero and each certification
      adds one to its category and, when linked, to `withProjects`. */
  method Statistics(certs: seq<Certification>) returns (stats: CertificationStatistics)
    ensures stats.total == |certs|
    ensures forall k :: CounterOf(stats.byCategory, k) == CategoryCount(certs, k)
    ensures stats.withProjects == LinkedCount(certs)
  {
    var byCategory := CategoryCounters(0, 0, 0);
    var withProjects := 0;
    var i := 0;
    while i < |certs|
      invariant 0 <= i <= |certs|
      invariant forall k :: CounterOf(byCategory, k) == CategoryCount(certs[..i], k)
      invariant withProjects == LinkedCount(certs[..i])
    {
      assert certs[..i + 1][..i] == certs[..i];
      var cert := certs[i];
      match cert.category {
        case Event => byCategory := byCategory.(event := byCategory.event + 1);
        case Study => byCategory := byCategory.(study := byCategory.study + 1);
        case Competition => byCategory := byCategory.(competition := byCategory.competition + 1);
      }
      if Truthy(cert.related_project_id) {
        withProjects := withProjects + 1;
      }
      i := i + 1;
    }
    assert certs[..i] == certs;
    stats := CertificationStatistics(|certs|, byCategory, withProjects);
  }

  /** The three category counters add up to the total. */
  lemma {:induction false} CategoryCountsSum(certs: seq<Certification>)
    ensures CategoryCount(certs, Event) + CategoryCount(certs, Study) + CategoryCount(certs, Competition) == |certs|
  {
    if certs != [] {
      CategoryCountsSum(certs[..|certs| - 1]);
    }
  }

  /** Counting is additive over concatenation: the statistics of a list are
      those of its parts added together. */
  lemma {:induction false} CountsAppend(a: seq<Certification>, b: seq<Certification>, k: CertificationCategory)
    ensures CategoryCount(a + b, k) == CategoryCount(a, k) + CategoryCount(b, k)
    ensures LinkedCount(a + b) == LinkedCount(a) + LinkedCount(b)
    decreases |b|
  {
    if b == [] {
      assert a + b == a;
    } else {
      var b' := b[..|b| - 1];
      assert (a + b)[..|a + b| - 1] == a + b';
      CountsAppend(a, b', k);
    }
  }
}
