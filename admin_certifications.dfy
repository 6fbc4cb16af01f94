/**
 * The admin certifications screen: the search box, the create/edit modal and
 * its save, where empty optional fields are sent as nulls, and the
 * certificate upload with its type and size checks.
 */
module AdminCertifications {
  import opened Common
  import opened Text
  import opened Seqs
  import opened Database
  import opened UseCertifications
  import PF = ProjectForm
  import CertCard

  predicate CertMatches(searchTerm: string, c: Certification) {
    Contains(Lower(c.title), Lower(searchTerm)) || Contains(Lower(c.issuer), Lower(searchTerm))
  }

  /** `filteredCerts`: case-insensitive substring search on title or issuer. */
  function FilterCertifications(certs: seq<Certification>, searchTerm: string): (r: seq<Certification>)
    ensures IsSubsequence(r, certs)
    ensures forall c :: c in r <==> c in certs && CertMatches(searchTerm, c)
  {
    Filter(certs, c => CertMatches(searchTerm, c))
  }

  /** An empty search box lists every certification. */
  lemma EmptySearchKeepsAllCertifications(certs: seq<Certification>)
    ensures FilterCertifications(certs, "") == certs
  {
    forall i | 0 <= i < |certs|
      ensures CertMatches("", certs[i])
    {
      ContainsEmpty(Lower(certs[i].title));
    }
  }

  /** The modal's form: optional URLs are edited as (possibly empty) strings. */
  datatype CertFormData = CertFormData(
    title: string,
    issuer: string,
    issue_date: string,
    category: CertificationCategory,
    credential_url: string,
    certificate_file_url: string,
    related_project_id: Option<string>)

  /** The blank form `handleCreate` opens; `today` is the current date as
      `YYYY-MM-DD`, read from the clock in the source. */
  function BlankCertForm(today: string): (f: CertFormData)
    ensures f.title == "" && f.issuer == "" && f.issue_date == today
    ensures f.category == Study && f.related_project_id == None
    ensures f.credential_url == "" && f.certificate_file_url == ""
  {
    CertFormData("", "", today, Study, "", "", None)
  }

  /** The form `handleEdit` fills from the fetched row: a null URL becomes
      the empty string. */
  function EditCertForm(row: DbCertification): (f: CertFormData)
    ensures f.title == row.title && f.issuer == row.issuer && f.issue_date == row.issue_date
    ensures f.category == row.category && f.related_project_id == row.related_project_id
    ensures f.credential_url == OrElse(row.credential_url, "")
    ensures f.certificate_file_url == OrElse(row.certificate_file_url, "")
  {
    CertFormData(row.title, row.issuer, row.issue_date, row.category,
      OrElse(row.credential_url, ""), OrElse(row.certificate_file_url, ""), row.related_project_id)
  }

  /** The columns `handleSubmit` writes. */
  datatype CertToSave = CertToSave(
    title: string,
    issuer: string,
    issue_date: string,
    category: CertificationCategory,
    credential_url: Option<string>,
    certificate_file_url: Option<string>,
    related_project_id: Option<string>)

  /** `dataToSave`: the text fields and category copied; an empty credential
      URL, file URL or project id sent as null. */
  function DataToSave(f: CertFormData): (d: CertToSave)
    ensures d.title == f.title && d.issuer == f.issuer && d.issue_date == f.issue_date && d.category == f.category
    ensures d.credential_url.None? <==> f.credential_url == ""
    ensures d.credential_url.Some? ==> d.credential_url.value == f.credential_url
    ensures d.certificate_file_url.None? <==> f.certificate_file_url == ""
    ensures d.certificate_file_url.Some? ==> d.certificate_file_url.value == f.certificate_file_url
    ensures d.related_project_id.None? <==> !Truthy(f.related_project_id)
    ensures d.related_project_id.Some? ==> d.related_project_id == f.related_project_id
  {
    CertToSave(f.title, f.issuer, f.issue_date, f.category,
      NullIfEmpty(f.credential_url), NullIfEmpty(f.certificate_file_url),
      if Truthy(f.related_project_id) then f.related_project_id else None)
  }

  /** The row the database holds after a write of `d` under `id`. */
  function StoredRow(id: string, d: CertToSave): DbCertification {
    DbCertification(id, d.title, d.issuer, d.issue_date, d.category,
      d.credential_url, d.certificate_file_url, d.related_project_id)
  }

  /** Saving a form and opening it again for editing gives the same form back,
      unless it held an empty (rather than null) project id. */
  lemma SaveThenEditRoundTrip(id: string, f: CertFormData)
    requires f.related_project_id != Some("")
    ensures EditCertForm(StoredRow(id, DataToSave(f))) == f
  {
  }

  /** Opening a stored row and saving it unchanged writes the row's own values,
      provided no optional column holds an empty string. */
  lemma EditThenSaveRoundTrip(row: DbCertification)
    requires row.credential_url != Some("") && row.certificate_file_url != Some("")
    requires row.related_project_id != Some("")
    ensures StoredRow(row.id, DataToSave(EditCertForm(row))) == row
  {
  }

  /** The write `handleSubmit` sends. */
  datatype CertWrite =
    | UpdateCertification(id: string, data: CertToSave)
    | InsertCertification(data: CertToSave)

  function CertSubmitWrite(editingId: Option<string>, f: CertFormData): (w: CertWrite)
    ensures w.data == DataToSave(f)
    ensures w.UpdateCertification? <==> Truthy(editingId)
    ensures w.UpdateCertification? ==> w.id == editingId.value
  {
    if Truthy(editingId) then UpdateCertification(editingId.value, DataToSave(f)) else InsertCertification(DataToSave(f))
  }

  /** The MIME types the certificate upload accepts. */
  const ValidCertTypes: seq<string> := ["image/jpeg", "image/jpg", "image/png", "image/webp", "application/pdf"]

  const MaxCertFileBytes: int := 10 * 1024 * 1024

  datatype CertFileCheck = NoFileChosen | UnsupportedType | FileTooLarge | FileAccepted

  /** The checks before a certificate upload: a file must be chosen, its type
      must be one of the five listed (checked first), and it must not exceed
      10 MB. */
  function CheckCertFile(file: Option<PF.FileInfo>): (r: CertFileCheck)
    ensures r == FileAccepted <==>
      file.Some? && file.value.mimeType in ValidCertTypes && file.value.size <= MaxCertFileBytes
    ensures r == UnsupportedType <==> file.Some? && file.value.mimeType !in ValidCertTypes
    ensures r == NoFileChosen <==> file.None?
  {
    match file
    case None => NoFileChosen
    case Some(f) =>
      if f.mimeType !in ValidCertTypes then UnsupportedType
      else if f.size > MaxCertFileBytes then FileTooLarge
      else FileAccepted
  }

  const UnsupportedTypeAlert: string := "Solo se permiten imágenes (JPG, PNG, WebP) o archivos PDF"
  const FileTooLargeAlert: string := "El archivo no debe superar 10MB"
  const CertSaveAlert: string := "Error al guardar. Revisa la consola."

  /** The file the modal previews: the fresh upload if any, else the form's URL. */
  function PreviewSource(filePreview: Option<string>, formUrl: string): (src: string)
    ensures Truthy(filePreview) ==> src == filePreview.value
    ensures !Truthy(filePreview) ==> src == formUrl
  {
    OrElse(filePreview, formUrl)
  }

  /** The modal's preview box: drawn only when the preview source is
      non-empty, as a PDF link exactly when that source ends in `.pdf`
      (case-sensitively), and as an image otherwise. It is the rule the public
      card applies to a stored file URL. */
  function ModalPreview(filePreview: Option<string>, formUrl: string): (p: CertCard.FilePreview)
    ensures p.NoFilePreview? <==> !Truthy(filePreview) && formUrl == ""
    ensures p.PdfPreview? <==> EndsWith(PreviewSource(filePreview, formUrl), ".pdf")
    ensures !p.NoFilePreview? ==> p.url == PreviewSource(filePreview, formUrl)
    ensures p == CertCard.FilePreviewOf(Some(PreviewSource(filePreview, formUrl)))
  {
    var src := PreviewSource(filePreview, formUrl);
    if src == "" then CertCard.NoFilePreview
    else if EndsWith(src, ".pdf") then CertCard.PdfPreview(src)
    else CertCard.ImagePreview(src)
  }

  /** An edit in the modal. An empty project choice means no project. */
  datatype CertInput =
    | TitleInput(title: string)
    | IssuerInput(issuer: string)
    | DateInput(issue_date: string)
    | CategoryInput(category: CertificationCategory)
    | ProjectInput(projectId: string)
    | CredentialInput(credential_url: string)

  function ApplyCertInput(f: CertFormData, e: CertInput): (g: CertFormData)
    ensures e.ProjectInput? ==> g.related_project_id == NullIfEmpty(e.projectId)
    ensures !e.ProjectInput? ==> g.related_project_id == f.related_project_id
    ensures g.certificate_file_url == f.certificate_file_url
    ensures g.title == (if e.TitleInput? then e.title else f.title)
    ensures g.issuer == (if e.IssuerInput? then e.issuer else f.issuer)
    ensures g.issue_date == (if e.DateInput? then e.issue_date else f.issue_date)
    ensures g.category == (if e.CategoryInput? then e.category else f.category)
    ensures g.credential_url == (if e.CredentialInput? then e.credential_url else f.credential_url)
  {
    match e
    case TitleInput(v) => f.(title := v)
    case IssuerInput(v) => f.(issuer := v)
    case DateInput(v) => f.(issue_date := v)
    case CategoryInput(c) => f.(category := c)
    case ProjectInput(v) => f.(related_project_id := NullIfEmpty(v))
    case CredentialInput(v) => f.(credential_url := v)
  }

  /** The modal inputs never put an empty project id in the form. */
  lemma InputsNeverStoreEmptyProjectId(f: CertFormData, e: CertInput)
    requires f.related_project_id != Some("")
    ensures ApplyCertInput(f, e).related_project_id != Some("")
  {
  }

  /** The screen's modal state. */
  class AdminCertificationsState {
    var isModalOpen: bool
    var editingId: Option<string>
    var formData: CertFormData
    var submitting: bool
    var uploadingFile: bool
    var filePreview: Option<string>

    constructor (today: string)
      ensures !isModalOpen && editingId == None && formData == BlankCertForm(today)
      ensures !submitting && !uploadingFile && filePreview == None
    {
      isModalOpen := false;
      editingId := None;
      formData := CertFormData("", "", today, Study, "", "", None);
      submitting := false;
      uploadingFile := false;
      filePreview := None;
    }

    /** `handleCreate`: open the blank form, not editing. The preview of an
        earlier upload is not cleared. */
    method HandleCreate(today: string)
      modifies this
      ensures editingId == None && formData == BlankCertForm(today) && isModalOpen
      ensures filePreview == old(filePreview)
      ensures submitting == old(submitting) && uploadingFile == old(uploadingFile)
    {
      editingId := None;
      formData := CertFormData("", "", today, Study, "", "", None);
      isModalOpen := true;
    }

    /** `handleEdit`: mark the id as being edited, then fetch the row; a
        failed fetch leaves the form and the modal as they were. */
    method HandleEdit(certId: string, fetched: Result<DbCertification>)
      modifies this
      ensures editingId == Some(certId)
      ensures fetched.Ok? ==> formData == EditCertForm(fetched.value) && isModalOpen
      ensures fetched.Err? ==> formData == old(formData) && isModalOpen == old(isModalOpen)
      ensures filePreview == old(filePreview)
      ensures submitting == old(submitting) && uploadingFile == old(uploadingFile)
    {
      editingId := Some(certId);
      if fetched.Err? {
        return;
      }
      formData := EditCertForm(fetched.value);
      isModalOpen := true;
    }

    method HandleInput(e: CertInput)
      modifies this
      ensures formData == ApplyCertInput(old(formData), e)
      ensures editingId == old(editingId) && isModalOpen == old(isModalOpen) && filePreview == old(filePreview)
      ensures submitting == old(submitting) && uploadingFile == old(uploadingFile)
    {
      formData := ApplyCertInput(formData, e);
    }

    /** `handleSubmit`: send the write; `writeError` is the backend's answer.
        On success the list is refetched and the modal closes; on failure an
        alert is raised. `submitting` ends false either way. */
    method HandleSubmit(writeError: Option<string>) returns (write: CertWrite, refetch: bool, alert: Option<string>)
      modifies this
      ensures write == CertSubmitWrite(old(editingId), old(formData))
      ensures refetch <==> writeError.None?
      ensures isModalOpen == (if writeError.None? then false else old(isModalOpen))
      ensures alert == (if writeError.None? then None else Some(CertSaveAlert))
      ensures !submitting
      ensures editingId == old(editingId) && formData == old(formData) && filePreview == old(filePreview)
      ensures uploadingFile == old(uploadingFile)
    {
      submitting := true;
      var data := DataToSave(formData);
      if editingId.Some? && editingId.value != "" {
        write := UpdateCertification(editingId.value, data);
      } else {
        write := InsertCertification(data);
      }
      if writeError.None? {
        refetch := true;
        alert := None;
        isModalOpen := false;
      } else {
        refetch := false;
        alert := Some(CertSaveAlert);
      }
      submitting := false;
    }

    /** `handleFileUpload`: `upload` is the storage call's result, the public
        URL or the error message. A rejected file raises its alert and
        changes nothing; an accepted one is uploaded and, on success, becomes
        both the form's file URL and the preview. */
    method HandleFileUpload(file: Option<PF.FileInfo>, upload: Result<string>) returns (alert: Option<string>)
      modifies this
      ensures var check := CheckCertFile(file);
        alert == (match check
                  case NoFileChosen => None
                  case UnsupportedType => Some(UnsupportedTypeAlert)
                  case FileTooLarge => Some(FileTooLargeAlert)
                  case FileAccepted => if upload.Ok? then None else Some("Error al subir archivo: " + upload.message))
      ensures CheckCertFile(file) == FileAccepted && upload.Ok? ==>
        formData == old(formData).(certificate_file_url := upload.value) && filePreview == Some(upload.value)
      ensures !(CheckCertFile(file) == FileAccepted && upload.Ok?) ==>
        formData == old(formData) && filePreview == old(filePreview)
      ensures CheckCertFile(file) == FileAccepted ==> !uploadingFile
      ensures CheckCertFile(file) != FileAccepted ==> uploadingFile == old(uploadingFile)
      ensures editingId == old(editingId) && isModalOpen == old(isModalOpen) && submitting == old(submitting)
    {
      if file.None? {
        return None;
      }
      var f := file.value;
      if f.mimeType !in ValidCertTypes {
        return Some(UnsupportedTypeAlert);
      }
      if f.size > MaxCertFileBytes {
        return Some(FileTooLargeAlert);
      }
      uploadingFile := true;
      match upload {
        case Ok(publicUrl) =>
          formData := formData.(certificate_file_url := publicUrl);
          filePreview := Some(publicUrl);
          alert := None;
        case Err(message) =>
          alert := Some("Error al subir archivo: " + message);
      }
      uploadingFile := false;
    }
  }

  /** After an upload, "create" opens a blank form whose file URL is empty
      while the preview still shows the uploaded file, which a save would not
      send. */
  method UploadThenCreate(file: PF.FileInfo, url: string, today: string)
    requires CheckCertFile(Some(file)) == FileAccepted && url != ""
  {
    var s := new AdminCertificationsState(today);
    var _ := s.HandleFileUpload(Some(file), Ok(url));
    s.HandleCreate(today);
    assert s.formData.certificate_file_url == "";
    assert PreviewSource(s.filePreview, s.formData.certificate_file_url) == url;
    assert DataToSave(s.formData).certificate_file_url == None;
  }
}
