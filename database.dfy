/**
 * The rows of the hosted database's tables, as the hooks and admin screens
 * receive them. Timestamps the model never reads are omitted; nullable
 * columns are `Option`s.
 */
module Database {
  import opened Common

  datatype SkillCategory = Frontend | Backend | Tools | Soft

  datatype CertificationCategory = Event | Study | Competition

  /** A row of `projects`. */
  datatype DbProject = DbProject(
    id: string,
    title: string,
    slug: string,
    short_description: string,
    full_description: Option<string>,
    cover_image_url: Option<string>,
    demo_url: Option<string>,
    repo_url: Option<string>,
    is_featured: bool)

  /** A row of `skills`. */
  datatype DbSkill = DbSkill(
    id: string,
    name: string,
    icon_url: Option<string>,
    category: SkillCategory,
    proficiency: int)

  /** A row of `certifications`. */
  datatype DbCertification = DbCertification(
    id: string,
    title: string,
    issuer: string,
    issue_date: string,
    category: CertificationCategory,
    credential_url: Option<string>,
    certificate_file_url: Option<string>,
    related_project_id: Option<string>)

  /** JavaScript truthiness of a nullable string column: present and non-empty. */
  predicate Truthy(s: Option<string>) { s.Some? && s.value != "" }

  /** `value || fallback` on a nullable string column. */
  function OrElse(s: Option<string>, fallback: string): (r: string)
    ensures Truthy(s) ==> r == s.value
    ensures !Truthy(s) ==> r == fallback
  {
    if Truthy(s) then s.value else fallback
  }

  /** `value || null` on a string: the empty string is sent as null. */
  function NullIfEmpty(s: string): (r: Option<string>)
    ensures r.None? <==> s == ""
    ensures r.Some? ==> r.value == s
    ensures OrElse(r, "") == s
  {
    if s == "" then None else Some(s)
  }
}
