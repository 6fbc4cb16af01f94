/**
 * The admin project form: slug generation, the input and skill-toggle
 * handlers, the cover-image check, and submit-time validation and
 * normalisation. The backend's answers are inputs to the handlers; the
 * writes the form would send are returned so their order can be stated.
 */
module ProjectForm {
  import opened Common
  import opened Text
  import opened Seqs
  import opened Database

  // ---------------------------------------------------------------- slugs

  /** A character a slug may contain: `[a-z0-9_-]`. */
  predicate SlugChar(c: char) { IsLowerLetter(c) || IsDigit(c) || c == '_' || c == '-' }

  /** The characters `replace(/[^\w\s-]/g, '')` keeps. */
  predicate KeptBySlugFilter(c: char) { IsWordChar(c) || IsSpace(c) || c == '-' }

  /** `replace(/\s+/g, '-')`: every maximal run of whitespace becomes one `-`. */
  function DashRuns(s: string): (r: string)
    ensures |r| <= |s|
    decreases |s|
  {
    if s == [] then []
    else if IsSpace(s[0]) then "-" + DashRuns(TrimStart(s[1..]))
    else [s[0]] + DashRuns(s[1..])
  }

  /** `generateSlug(title)`: lower-case, trim, drop characters outside
      `[\w\s-]`, and turn each whitespace run into `-`. */
  function GenerateSlug(title: string): (r: string)
    ensures forall i :: 0 <= i < |r| ==> SlugChar(r[i])
    ensures forall i :: 0 <= i < |r| ==> !IsSpace(r[i])
  {
    var lowered := Lower(title);
    var kept := Filter(Trim(lowered), KeptBySlugFilter);
    TrimChars(lowered);
    assert forall c :: c in kept ==> c in lowered;
    SlugCharsAfterDashRuns(kept);
    DashRuns(kept)
  }

  /** When every character is a slug character or whitespace, replacing the
      whitespace runs leaves only slug characters. */
  lemma {:induction false} SlugCharsAfterDashRuns(s: string)
    requires forall c :: c in s ==> SlugChar(c) || IsSpace(c)
    ensures forall i :: 0 <= i < |DashRuns(s)| ==> SlugChar(DashRuns(s)[i])
    decreases |s|
  {
    if s != [] {
      if IsSpace(s[0]) {
        var t := TrimStart(s[1..]);
        TrimStartSpec(s[1..]);
        assert forall c :: c in t ==> c in s[1..];
        SlugCharsAfterDashRuns(t);
      } else {
        SlugCharsAfterDashRuns(s[1..]);
      }
    }
  }

  /** Without whitespace there is nothing to replace. */
  lemma {:induction false} DashRunsNoSpace(s: string)
    requires forall i :: 0 <= i < |s| ==> !IsSpace(s[i])
    ensures DashRuns(s) == s
    decreases |s|
  {
    if s != [] {
      DashRunsNoSpace(s[1..]);
    }
  }

  /** A generated slug is its own slug. */
  lemma GenerateSlugIdempotent(title: string)
    ensures GenerateSlug(GenerateSlug(title)) == GenerateSlug(title)
  {
    var s := GenerateSlug(title);
    LowerNoUpper(s);
    TrimNoSpace(s);
    assert Filter(s, KeptBySlugFilter) == s;
    DashRunsNoSpace(s);
  }

  // ---------------------------------------------------------------- form state

  datatype ProjectFormData = ProjectFormData(
    title: string,
    slug: string,
    short_description: string,
    full_description: string,
    cover_image_url: string,
    demo_url: string,
    repo_url: string,
    is_featured: bool,
    selectedSkills: seq<string>)

  const EmptyForm: ProjectFormData := ProjectFormData("", "", "", "", "", "", "", false, [])

  /** A change event from one of the form's inputs: its `name`, and either the
      text value or, for the checkbox, its checked state. */
  datatype InputChange = InputChange(name: string, value: string, isCheckbox: bool, checked: bool)

  /** `[name]: type === 'checkbox' ? checked : value` for the inputs the form renders. */
  function SetField(f: ProjectFormData, e: InputChange): ProjectFormData {
    if e.isCheckbox then
      (if e.name == "is_featured" then f.(is_featured := e.checked) else f)
    else if e.name == "title" then f.(title := e.value)
    else if e.name == "slug" then f.(slug := e.value)
    else if e.name == "short_description" then f.(short_description := e.value)
    else if e.name == "full_description" then f.(full_description := e.value)
    else if e.name == "demo_url" then f.(demo_url := e.value)
    else if e.name == "repo_url" then f.(repo_url := e.value)
    else f
  }

  /** `handleInputChange`: the named field takes the new value (the checkbox
      its checked state), and editing the title also regenerates the slug,
      but only when creating a project. */
  function ApplyInputChange(f: ProjectFormData, e: InputChange, isEditMode: bool): (g: ProjectFormData)
    ensures g.title == (if !e.isCheckbox && e.name == "title" then e.value else f.title)
    ensures g.slug ==
      if e.name == "title" && !isEditMode then GenerateSlug(e.value)
      else if !e.isCheckbox && e.name == "slug" then e.value
      else f.slug
    ensures g.short_description == (if !e.isCheckbox && e.name == "short_description" then e.value else f.short_description)
    ensures g.full_description == (if !e.isCheckbox && e.name == "full_description" then e.value else f.full_description)
    ensures g.demo_url == (if !e.isCheckbox && e.name == "demo_url" then e.value else f.demo_url)
    ensures g.repo_url == (if !e.isCheckbox && e.name == "repo_url" then e.value else f.repo_url)
    ensures g.is_featured == (if e.isCheckbox && e.name == "is_featured" then e.checked else f.is_featured)
    ensures g.selectedSkills == f.selectedSkills && g.cover_image_url == f.cover_image_url
  {
    var g := SetField(f, e);
    if e.name == "title" && !isEditMode then g.(slug := GenerateSlug(e.value)) else g
  }

  /** In edit mode the slug changes only through its own input. */
  lemma EditModeKeepsSlug(f: ProjectFormData, e: InputChange)
    requires !(e.name == "slug" && !e.isCheckbox)
    ensures ApplyInputChange(f, e, true).slug == f.slug
  {
  }

  /** The `handleSkillToggle` updater: a selected id is removed (every copy of
      it), an unselected one is appended; the other ids keep their order and
      their number of copies. */
  function ToggleSkill(selected: seq<string>, skillId: string): (r: seq<string>)
    ensures skillId in selected ==> skillId !in r && IsSubsequence(r, selected)
    ensures skillId in selected ==> forall x :: x != skillId ==> multiset(r)[x] == multiset(selected)[x]
    ensures skillId !in selected ==> r == selected + [skillId]
  {
    if skillId in selected then
      var r := Filter(selected, x => x != skillId);
      assert forall x :: multiset(r)[x] == if x != skillId then multiset(selected)[x] else 0 by {
        forall x { FilterMultiset(selected, y => y != skillId, x); }
      }
      r
    else selected + [skillId]
  }

  /** Selecting an unselected skill and toggling it again restores the selection. */
  lemma ToggleSkillTwice(selected: seq<string>, skillId: string)
    requires skillId !in selected
    ensures ToggleSkill(ToggleSkill(selected, skillId), skillId) == selected
  {
    FilterAppend(selected, [skillId], x => x != skillId);
  }

  // ---------------------------------------------------------------- image upload

  datatype FileInfo = FileInfo(name: string, mimeType: string, size: int)

  const MaxImageBytes: int := 5 * 1024 * 1024

  datatype ImageCheck = NoFile | NotAnImage | ImageTooLarge | ImageAccepted

  /** The checks before an upload: a file must be chosen, its type must start
      with `image/` (checked first), and its size must not exceed 5 MB. */
  function CheckImage(file: Option<FileInfo>): (r: ImageCheck)
    ensures r == ImageAccepted <==>
      file.Some? && StartsWith(file.value.mimeType, "image/") && file.value.size <= MaxImageBytes
    ensures r == NotAnImage <==> file.Some? && !StartsWith(file.value.mimeType, "image/")
  {
    match file
    case None => NoFile
    case Some(f) =>
      if !StartsWith(f.mimeType, "image/") then NotAnImage
      else if f.size > MaxImageBytes then ImageTooLarge
      else ImageAccepted
  }

  const NotAnImageAlert: string := "Por favor selecciona un archivo de imagen"
  const ImageTooLargeAlert: string := "La imagen no debe superar 5MB"
  const MissingBucketError: string := "Bucket \"portfolio-assets\" no existe. Créalo en Supabase Storage."

  /** The message shown when the upload fails. */
  function UploadErrorMessage(message: string): (r: string)
    ensures Contains(message, "Bucket not found") ==> r == MissingBucketError
    ensures !Contains(message, "Bucket not found") ==> r == "Error al subir imagen: " + message
  {
    if Contains(message, "Bucket not found") then MissingBucketError else "Error al subir imagen: " + message
  }

  // ---------------------------------------------------------------- submit

  const RequiredFieldsError: string := "Por favor completa los campos obligatorios"
  const NoSkillsError: string := "Selecciona al menos una tecnología"
  const SaveFallbackError: string := "Error al guardar el proyecto"

  /** Submit-time validation, in the order the handler checks. */
  function ValidateProjectForm(f: ProjectFormData): (r: Option<string>)
    ensures r.None? <==>
      f.title != "" && f.slug != "" && f.short_description != "" && |f.selectedSkills| > 0
    ensures f.title == "" || f.slug == "" || f.short_description == "" ==> r == Some(RequiredFieldsError)
  {
    if f.title == "" || f.slug == "" || f.short_description == "" then Some(RequiredFieldsError)
    else if |f.selectedSkills| == 0 then Some(NoSkillsError)
    else None
  }

  /** The row sent to the `projects` table. */
  datatype ProjectRecord = ProjectRecord(
    title: string,
    slug: string,
    short_description: string,
    full_description: Option<string>,
    cover_image_url: Option<string>,
    demo_url: Option<string>,
    repo_url: Option<string>,
    is_featured: bool)

  /** Neither starts nor ends with whitespace. */
  predicate NoOuterSpace(s: string) { s == [] || (!IsSpace(s[0]) && !IsSpace(s[|s| - 1])) }

  /** `value.trim() || null`: blank becomes null. */
  function TrimOrNull(s: string): (r: Option<string>)
    ensures r.None? <==> Trim(s) == ""
    ensures r.Some? ==> r.value == Trim(s) && r.value != "" && NoOuterSpace(r.value)
  {
    NullIfEmpty(Trim(s))
  }

  /** `projectData`: the three required strings trimmed; the optional
      description and links trimmed with blank becoming null; the cover URL
      made null when empty but not trimmed. */
  function ProjectRecordOf(f: ProjectFormData): (r: ProjectRecord)
    ensures r.title == Trim(f.title) && r.slug == Trim(f.slug) && r.short_description == Trim(f.short_description)
    ensures NoOuterSpace(r.title) && NoOuterSpace(r.slug) && NoOuterSpace(r.short_description)
    ensures r.full_description == TrimOrNull(f.full_description)
    ensures r.demo_url == TrimOrNull(f.demo_url) && r.repo_url == TrimOrNull(f.repo_url)
    ensures r.cover_image_url == NullIfEmpty(f.cover_image_url)
    ensures r.is_featured == f.is_featured
  {
    ProjectRecord(
      Trim(f.title), Trim(f.slug), Trim(f.short_description),
      TrimOrNull(f.full_description),
      NullIfEmpty(f.cover_image_url),
      TrimOrNull(f.demo_url),
      TrimOrNull(f.repo_url),
      f.is_featured)
  }

  /** The loader's `setFormData`: the fetched row's columns, a null
      description, cover or link becoming the empty string, and the ids of its
      skill relations. */
  function LoadedForm(row: DbProject, skillIds: seq<string>): (f: ProjectFormData)
    ensures f.title == row.title && f.slug == row.slug && f.short_description == row.short_description
    ensures f.full_description == OrElse(row.full_description, "")
    ensures f.cover_image_url == OrElse(row.cover_image_url, "")
    ensures f.demo_url == OrElse(row.demo_url, "") && f.repo_url == OrElse(row.repo_url, "")
    ensures f.is_featured == row.is_featured && f.selectedSkills == skillIds
  {
    ProjectFormData(row.title, row.slug, row.short_description,
      OrElse(row.full_description, ""), OrElse(row.cover_image_url, ""),
      OrElse(row.demo_url, ""), OrElse(row.repo_url, ""), row.is_featured, skillIds)
  }

  /** The row `projects` holds under `id` after the record was written. */
  function StoredProject(id: string, r: ProjectRecord): DbProject {
    DbProject(id, r.title, r.slug, r.short_description, r.full_description,
      r.cover_image_url, r.demo_url, r.repo_url, r.is_featured)
  }

  /** Normalising a blank-or-trimmed optional string a second time changes nothing. */
  lemma TrimOrNullStable(s: string)
    ensures TrimOrNull(OrElse(TrimOrNull(s), "")) == TrimOrNull(s)
  {
    var t := TrimOrNull(s);
    if t.Some? {
      TrimNoOuterSpace(t.value);
    }
  }

  /** Saving a form, opening the saved project for editing and saving it
      again without changes writes the same row. */
  lemma SaveLoadSaveStable(id: string, f: ProjectFormData, skillIds: seq<string>)
    ensures ProjectRecordOf(LoadedForm(StoredProject(id, ProjectRecordOf(f)), skillIds)) == ProjectRecordOf(f)
  {
    TrimNoOuterSpace(Trim(f.title));
    TrimNoOuterSpace(Trim(f.slug));
    TrimNoOuterSpace(Trim(f.short_description));
    TrimOrNullStable(f.full_description);
    TrimOrNullStable(f.demo_url);
    TrimOrNullStable(f.repo_url);
  }

  /** A write the form sends to the backend. */
  datatype BackendWrite =
    | InsertProject(record: ProjectRecord)
    | UpdateProject(id: string, record: ProjectRecord)
    | DeleteProjectSkills(projectId: string)
    | InsertProjectSkills(projectId: string, skillIds: seq<string>)

  /** `err.message || 'Error al guardar el proyecto'`. */
  function SaveErrorMessage(message: string): (r: string)
    ensures r != ""
  {
    if message == "" then SaveFallbackError else message
  }

  /** The first write of a submit: update the edited project, or insert a new one. */
  function SaveWrite(editId: Option<string>, f: ProjectFormData): BackendWrite {
    if editId.Some? then UpdateProject(editId.value, ProjectRecordOf(f)) else InsertProject(ProjectRecordOf(f))
  }

  /** What a submit leads to: the writes sent, the error shown, and whether the
      form navigates back to the project list. */
  datatype SubmitOutcome = SubmitOutcome(writes: seq<BackendWrite>, error: Option<string>, navigate: bool)

  /** `handleSubmit` as a value: validation first, then the project write, then
      (after the edited project's old relations are deleted) the relation write. */
  function Submit(editId: Option<string>, f: ProjectFormData, projectSave: Result<string>, skillsError: Option<string>)
    : (o: SubmitOutcome)
    ensures o.navigate ==> o.error.None?
    ensures o.navigate || o.error.Some?
    ensures ValidateProjectForm(f).Some? ==> o.writes == [] && o.error == ValidateProjectForm(f)
    ensures ValidateProjectForm(f).None? ==> |o.writes| >= 1 && o.writes[0] == SaveWrite(editId, f)
    ensures ValidateProjectForm(f).None? && projectSave.Err? ==>
      |o.writes| == 1 && o.error == Some(SaveErrorMessage(projectSave.message))
    ensures ValidateProjectForm(f).None? && projectSave.Ok? ==>
      o.writes[|o.writes| - 1] == InsertProjectSkills(projectSave.value, f.selectedSkills)
      && (editId.Some? <==> |o.writes| == 3)
      && (editId.Some? ==> o.writes[1] == DeleteProjectSkills(projectSave.value))
      && (o.navigate <==> skillsError.None?)
    ensures o.navigate <==> ValidateProjectForm(f).None? && projectSave.Ok? && skillsError.None?
  {
    if ValidateProjectForm(f).Some? then SubmitOutcome([], ValidateProjectForm(f), false)
    else match projectSave
      case Err(message) => SubmitOutcome([SaveWrite(editId, f)], Some(SaveErrorMessage(message)), false)
      case Ok(projectId) =>
        var writes := [SaveWrite(editId, f)]
          + (if editId.Some? then [DeleteProjectSkills(projectId)] else [])
          + [InsertProjectSkills(projectId, f.selectedSkills)];
        match skillsError
        case Some(message) => SubmitOutcome(writes, Some(SaveErrorMessage(message)), false)
        case None => SubmitOutcome(writes, None, true)
  }

  const LoadProjectError: string := "Error al cargar el proyecto"

  /** The state of the form component. `editId` is the route parameter: present
      when editing an existing project. */
  class ProjectFormState {
    const editId: Option<string>
    var formData: ProjectFormData
    var loading: bool
    var error: Option<string>
    var uploadingImage: bool
    var imagePreview: Option<string>
    var navigatedTo: Option<string>

    /** Mounting, with the edit-mode loader run to completion. `loaded` is the
        answer to the fetch (the row and the ids of its skill relations, or
        the error); create mode never fetches. A fetched row fills the form
        and previews its cover; a failed fetch keeps the empty form and shows
        the load error. */
    constructor (editId: Option<string>, loaded: Result<(DbProject, seq<string>)>)
      ensures this.editId == editId
      ensures editId.None? ==> formData == EmptyForm && error.None? && imagePreview.None?
      ensures editId.Some? && loaded.Ok? ==>
        formData == LoadedForm(loaded.value.0, loaded.value.1)
        && imagePreview == loaded.value.0.cover_image_url && error.None?
      ensures editId.Some? && loaded.Err? ==>
        formData == EmptyForm && imagePreview.None? && error == Some(LoadProjectError)
      ensures !loading && !uploadingImage && navigatedTo.None?
    {
      this.editId := editId;
      formData := EmptyForm;
      loading := false;
      error := None;
      uploadingImage := false;
      imagePreview := None;
      navigatedTo := None;
      if editId.Some? {
        match loaded {
          case Ok(fetched) =>
            formData := LoadedForm(fetched.0, fetched.1);
            imagePreview := fetched.0.cover_image_url;
          case Err(_) =>
            error := Some(LoadProjectError);
        }
      }
    }

    method HandleInputChange(e: InputChange)
      modifies this
      ensures formData == ApplyInputChange(old(formData), e, editId.Some?)
      ensures loading == old(loading) && error == old(error) && navigatedTo == old(navigatedTo)
      ensures imagePreview == old(imagePreview) && uploadingImage == old(uploadingImage)
    {
      formData := SetField(formData, e);
      if e.name == "title" && editId.None? {
        formData := formData.(slug := GenerateSlug(e.value));
      }
    }

    method HandleSkillToggle(skillId: string)
      modifies this
      ensures formData == old(formData).(selectedSkills := ToggleSkill(old(formData).selectedSkills, skillId))
      ensures loading == old(loading) && error == old(error) && navigatedTo == old(navigatedTo)
      ensures imagePreview == old(imagePreview) && uploadingImage == old(uploadingImage)
    {
      formData := formData.(selectedSkills := ToggleSkill(formData.selectedSkills, skillId));
    }

    /** `handleImageUpload`: a rejected file raises its alert and changes
        nothing; an accepted one is uploaded (`upload` is the storage answer:
        the public URL or the error message). */
    method HandleImageUpload(file: Option<FileInfo>, upload: Result<string>) returns (alert: Option<string>)
      modifies this
      ensures alert == match CheckImage(file)
        case NotAnImage => Some(NotAnImageAlert)
        case ImageTooLarge => Some(ImageTooLargeAlert)
        case _ => None
      ensures CheckImage(file) != ImageAccepted ==>
        formData == old(formData) && error == old(error) && imagePreview == old(imagePreview)
        && uploadingImage == old(uploadingImage)
      ensures CheckImage(file) == ImageAccepted && upload.Ok? ==>
        formData == old(formData).(cover_image_url := upload.value) && imagePreview == Some(upload.value)
        && error.None?
      ensures CheckImage(file) == ImageAccepted && upload.Err? ==>
        formData == old(formData) && imagePreview == old(imagePreview)
        && error == Some(UploadErrorMessage(upload.message))
      ensures CheckImage(file) == ImageAccepted ==> !uploadingImage
      ensures loading == old(loading) && navigatedTo == old(navigatedTo)
    {
      var check := CheckImage(file);
      alert := None;
      if check == NoFile {
        return;
      } else if check == NotAnImage {
        alert := Some(NotAnImageAlert);
        return;
      } else if check == ImageTooLarge {
        alert := Some(ImageTooLargeAlert);
        return;
      }
      uploadingImage := true;
      error := None;
      match upload {
        case Ok(url) =>
          formData := formData.(cover_image_url := url);
          imagePreview := Some(url);
        case Err(message) =>
          error := Some(UploadErrorMessage(message));
      }
      uploadingImage := false;
    }

    /** `handleSubmit`. `projectSave` is the answer to the insert or update (the
        saved row's id, or the error message); `skillsError` is the answer to
        inserting the project's skill relations. */
    method HandleSubmit(projectSave: Result<string>, skillsError: Option<string>)
      returns (writes: seq<BackendWrite>)
      modifies this
      ensures var o := Submit(editId, old(formData), projectSave, skillsError);
        writes == o.writes && error == o.error
        && navigatedTo == (if o.navigate then Some("/admin/projects") else old(navigatedTo))
      ensures !loading && formData == old(formData)
      ensures imagePreview == old(imagePreview) && uploadingImage == old(uploadingImage)
    {
      loading := true;
      error := None;
      writes := [];
      var invalid := ValidateProjectForm(formData);
      if invalid.Some? {
        error := invalid;
        loading := false;
        return;
      }
      var record := ProjectRecordOf(formData);
      if editId.Some? {
        writes := [UpdateProject(editId.value, record)];
      } else {
        writes := [InsertProject(record)];
      }
      match projectSave {
        case Err(message) =>
          error := Some(SaveErrorMessage(message));
        case Ok(projectId) =>
          if editId.Some? {
            writes := writes + [DeleteProjectSkills(projectId)];
          }
          writes := writes + [InsertProjectSkills(projectId, formData.selectedSkills)];
          match skillsError {
            case Some(message) =>
              error := Some(SaveErrorMessage(message));
            case None =>
              navigatedTo := Some("/admin/projects");
          }
      }
      loading := false;
    }
  }
}
