/**
 * The certification card: the issuer logo table with its fallback, the
 * category badge, and which of the file preview, credential link and
 * related-project button are drawn.
 */
module CertCard {
  import opened Common
  import opened Text
  import opened JsObject
  import opened Database
  import opened UseCertifications

  /** The issuer logo table, keyed by the exact issuer name. */
  const IssuerLogos: map<string, string> := map[
    "Amazon AWS" := "https://cdn.simpleicons.org/amazonaws/FF9900",
    "AWS" := "https://cdn.simpleicons.org/amazonaws/FF9900",
    "Google" := "https://cdn.simpleicons.org/google/4285F4",
    "Microsoft" := "https://cdn.simpleicons.org/microsoft/5E5E5E",
    "Udemy" := "https://cdn.simpleicons.org/udemy/A435F0",
    "Platzi" := "https://cdn.simpleicons.org/platzi/98CA3F",
    "Coursera" := "https://cdn.simpleicons.org/coursera/0056D2",
    "edX" := "https://cdn.simpleicons.org/edx/02262B",
    "Meta" := "https://cdn.simpleicons.org/meta/0668E1",
    "LinkedIn" := "https://cdn.simpleicons.org/linkedin/0A66C2",
    "Globant" := "https://cdn.simpleicons.org/globant/C4D600",
    "GitHub" := "https://cdn.simpleicons.org/github/FFFFFF",
    "Oracle" := "https://cdn.simpleicons.org/oracle/F80000"
  ]

  /** The logo shown for an issuer outside the table. */
  const PlaceholderLogo: string := "https://cdn.simpleicons.org/certificate/FFFFFF"

  /** No issuer in the table is mapped to the placeholder or to nothing. */
  lemma LogosAreReal()
    ensures forall k :: k in IssuerLogos ==> IssuerLogos[k] != PlaceholderLogo && IssuerLogos[k] != ""
  {
  }

  /** `getIssuerLogo` as written: an indexed read of the object literal, so an
      issuer such as `toString` reaches `Object.prototype` and yields a
      function instead of a URL. */
  function GetIssuerLogoAsWritten(issuer: string): (r: JsValue)
    ensures !Inherited(issuer) ==> r.JsString?
  {
    GetOr(IssuerLogos, issuer, PlaceholderLogo)
  }

  /** `getIssuerLogo` restricted to the table's own keys. */
  function GetIssuerLogo(issuer: string): (url: string)
    ensures issuer in IssuerLogos ==> url == IssuerLogos[issuer]
    ensures issuer !in IssuerLogos ==> url == PlaceholderLogo
  {
    LogosAreReal();
    GetOwnOr(IssuerLogos, issuer, PlaceholderLogo)
  }

  /** The two readings agree on every issuer name a plain object does not inherit. */
  lemma IssuerLogoCorrectedAgrees(issuer: string)
    requires !Inherited(issuer)
    ensures GetIssuerLogoAsWritten(issuer) == JsString(GetIssuerLogo(issuer))
  {
    GetOrAgreesOffPrototype(IssuerLogos, issuer, PlaceholderLogo);
  }

  /** Both spellings of Amazon's cloud share one logo. */
  lemma AwsAliases()
    ensures GetIssuerLogo("AWS") == GetIssuerLogo("Amazon AWS") == "https://cdn.simpleicons.org/amazonaws/FF9900"
  {
  }

  /** The lookup is case-sensitive: "aws" is not in the table. */
  lemma IssuerLookupCaseSensitive()
    ensures GetIssuerLogo("aws") == PlaceholderLogo
  {
  }

  /** The badge text for each category. */
  function CategoryLabel(c: CertificationCategory): (badge: string)
    ensures badge == "Certificación" <==> c == Study
    ensures badge == "Competencia" <==> c == Competition
    ensures badge == "Evento" <==> c == Event
  {
    match c
    case Study => "Certificación"
    case Competition => "Competencia"
    case Event => "Evento"
  }

  /** Different categories carry different badges. */
  lemma CategoryLabelsDistinct(a: CertificationCategory, b: CertificationCategory)
    ensures CategoryLabel(a) == CategoryLabel(b) <==> a == b
  {
  }

  /** The round logo slot: the issuer's image, or the category icon. */
  datatype LogoSlot = IssuerImage(src: JsValue) | CategoryIcon(category: CertificationCategory)

  /** As written: the category icon when the lookup returned exactly the
      placeholder URL, otherwise an image with whatever the lookup returned. */
  function LogoSlotAsWritten(c: Certification): (slot: LogoSlot)
    ensures slot.CategoryIcon? <==> GetIssuerLogoAsWritten(c.issuer) == JsString(PlaceholderLogo)
  {
    var logo := GetIssuerLogoAsWritten(c.issuer);
    if logo != JsString(PlaceholderLogo) then IssuerImage(logo) else CategoryIcon(c.category)
  }

  /** An issuer called "toString" gets an image whose source is a function,
      where a category icon was meant. */
  lemma LogoSlotAsWrittenToString(c: Certification)
    requires c.issuer == "toString"
    ensures LogoSlotAsWritten(c) == IssuerImage(JsFunction)
  {
    ToStringNotAnIssuer();
  }

  lemma ToStringNotAnIssuer()
    ensures "toString" !in IssuerLogos && "toString" in InheritedMethods
  {
  }

  /** The logo slot with the own-key lookup: the category icon exactly when
      the issuer is not in the table, otherwise its string URL. */
  function LogoSlotOf(c: Certification): (slot: LogoSlot)
    ensures slot.CategoryIcon? <==> c.issuer !in IssuerLogos
    ensures slot.CategoryIcon? ==> slot.category == c.category
    ensures slot.IssuerImage? ==> slot.src == JsString(IssuerLogos[c.issuer])
  {
    var logo := GetIssuerLogo(c.issuer);
    LogosAreReal();
    if logo != PlaceholderLogo then IssuerImage(JsString(logo)) else CategoryIcon(c.category)
  }

  /** The file strip at the top of the card. */
  datatype FilePreview = NoFilePreview | PdfPreview(url: string) | ImagePreview(url: string)

  /** Drawn only for a non-empty file URL; a URL ending in `.pdf` gets the PDF
      badge, anything else is drawn as an image. */
  function FilePreviewOf(fileUrl: Option<string>): (p: FilePreview)
    ensures p.NoFilePreview? <==> !Truthy(fileUrl)
    ensures p.PdfPreview? <==> Truthy(fileUrl) && EndsWith(fileUrl.value, ".pdf")
    ensures !p.NoFilePreview? ==> p.url == fileUrl.value
  {
    if !Truthy(fileUrl) then NoFilePreview
    else if EndsWith(fileUrl.value, ".pdf") then PdfPreview(fileUrl.value)
    else ImagePreview(fileUrl.value)
  }

  /** Everything on the card that depends on the record. */
  datatype CardView = CardView(
    logo: LogoSlot,
    badge: string,
    file: FilePreview,
    credentialLink: Option<string>,
    projectTarget: Option<string>)

  /** The card for a certification; `relatedProjectTitle` is the prop the
      vault passes. The credential link needs a non-empty URL; the
      "theory to practice" button needs both a non-empty title and a
      non-empty project id, and scrolls to that id. */
  function RenderCertCard(c: Certification, relatedProjectTitle: Option<string>): (v: CardView)
    ensures v.logo == LogoSlotOf(c) && v.badge == CategoryLabel(c.category)
    ensures v.file == FilePreviewOf(c.certificate_file_url)
    ensures v.credentialLink.Some? <==> Truthy(c.credential_url)
    ensures v.credentialLink.Some? ==> v.credentialLink == c.credential_url
    ensures v.projectTarget.Some? <==> Truthy(relatedProjectTitle) && Truthy(c.related_project_id)
    ensures v.projectTarget.Some? ==> v.projectTarget == c.related_project_id
  {
    CardView(
      LogoSlotOf(c),
      CategoryLabel(c.category),
      FilePreviewOf(c.certificate_file_url),
      if Truthy(c.credential_url) then c.credential_url else None,
      if Truthy(relatedProjectTitle) && Truthy(c.related_project_id) then c.related_project_id else None)
  }
}
