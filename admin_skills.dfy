/**
 * The admin skills screen: the search box, and the create/edit modal whose
 * form either inserts a new skill or updates the row named by `editingId`
 * (the skill's name doubles as its key here).
 */
module AdminSkills {
  import opened Common
  import opened Text
  import opened Seqs
  import opened Database
  import opened UseSkills

  predicate NameMatches(searchTerm: string, s: Skill) {
    Contains(Lower(s.name), Lower(searchTerm))
  }

  /** `filteredSkills`: case-insensitive substring search on the name. */
  function FilterSkills(skills: seq<Skill>, searchTerm: string): (r: seq<Skill>)
    ensures IsSubsequence(r, skills)
    ensures forall s :: s in r <==> s in skills && NameMatches(searchTerm, s)
  {
    Filter(skills, s => NameMatches(searchTerm, s))
  }

  /** An empty search box lists every skill. */
  lemma EmptySearchKeepsAllSkills(skills: seq<Skill>)
    ensures FilterSkills(skills, "") == skills
  {
    forall i | 0 <= i < |skills|
      ensures NameMatches("", skills[i])
    {
      ContainsEmpty(Lower(skills[i].name));
    }
  }

  datatype SkillFormData = SkillFormData(name: string, icon_url: string, category: SkillCategory, proficiency: int)

  /** The blank form: no name, no icon, `Frontend`, proficiency 50. */
  const BlankSkillForm: SkillFormData := SkillFormData("", "", Frontend, 50)

  /** The form `handleEdit` opens for a listed skill: its logo becomes the icon URL. */
  function EditForm(s: Skill): (f: SkillFormData)
    ensures f.name == s.name && f.icon_url == s.logo
    ensures f.category == s.category && f.proficiency == s.proficiency
  {
    SkillFormData(s.name, s.logo, s.category, s.proficiency)
  }

  /** One edit made in the modal. The proficiency slider's range is 0 to 100. */
  datatype SkillInput =
    | NameInput(name: string)
    | IconInput(icon_url: string)
    | CategoryInput(category: SkillCategory)
    | ProficiencyInput(proficiency: int)

  /** The field an input writes changes and the others are kept. */
  function ApplySkillInput(f: SkillFormData, e: SkillInput): (g: SkillFormData)
    ensures g.name == (if e.NameInput? then e.name else f.name)
    ensures g.icon_url == (if e.IconInput? then e.icon_url else f.icon_url)
    ensures g.category == (if e.CategoryInput? then e.category else f.category)
    ensures g.proficiency == (if e.ProficiencyInput? then e.proficiency else f.proficiency)
  {
    match e
    case NameInput(v) => f.(name := v)
    case IconInput(v) => f.(icon_url := v)
    case CategoryInput(c) => f.(category := c)
    case ProficiencyInput(v) => f.(proficiency := v)
  }

  /** What the slider can produce. */
  predicate FromSlider(e: SkillInput) {
    e.ProficiencyInput? ==> 0 <= e.proficiency <= 100
  }

  /** Starting from the blank form, slider input keeps the proficiency in
      0..100 however many edits follow. */
  lemma {:induction false} InputsKeepProficiencyInRange(f: SkillFormData, inputs: seq<SkillInput>)
    requires 0 <= f.proficiency <= 100
    requires forall i :: 0 <= i < |inputs| ==> FromSlider(inputs[i])
    ensures 0 <= ApplyAll(f, inputs).proficiency <= 100
  {
    if inputs != [] {
      InputsKeepProficiencyInRange(f, inputs[..|inputs| - 1]);
    }
  }

  function ApplyAll(f: SkillFormData, inputs: seq<SkillInput>): SkillFormData {
    if inputs == [] then f else ApplySkillInput(ApplyAll(f, inputs[..|inputs| - 1]), inputs[|inputs| - 1])
  }

  /** The write `handleSubmit` sends. */
  datatype SkillWrite =
    | UpdateSkillNamed(name: string, data: SkillFormData)
    | InsertSkill(data: SkillFormData)

  /** An update keyed by `editingId` when it is a non-empty string, otherwise
      an insert; either way the whole form is sent. */
  function SkillSubmitWrite(editingId: Option<string>, f: SkillFormData): (w: SkillWrite)
    ensures w.data == f
    ensures w.UpdateSkillNamed? <==> Truthy(editingId)
    ensures w.UpdateSkillNamed? ==> w.name == editingId.value
  {
    if Truthy(editingId) then UpdateSkillNamed(editingId.value, f) else InsertSkill(f)
  }

  /** Editing a skill and saving without changes rewrites that skill's row with
      the values it was listed with, as long as its name is not empty; a skill
      with an empty name is inserted again instead. */
  lemma EditThenSaveUpdatesRow(s: Skill)
    ensures s.name != "" ==> SkillSubmitWrite(Some(s.name), EditForm(s)) == UpdateSkillNamed(s.name, EditForm(s))
    ensures s.name == "" ==> SkillSubmitWrite(Some(s.name), EditForm(s)) == InsertSkill(EditForm(s))
  {
  }

  const SkillSaveAlert: string := "Error al guardar. Revisa la consola."

  /** The screen's modal state. */
  class AdminSkillsState {
    var isModalOpen: bool
    var editingId: Option<string>
    var formData: SkillFormData
    var submitting: bool

    constructor ()
      ensures !isModalOpen && editingId == None && formData == BlankSkillForm && !submitting
    {
      isModalOpen := false;
      editingId := None;
      formData := BlankSkillForm;
      submitting := false;
    }

    /** `handleCreate`: open the modal on the blank form, not editing. */
    method HandleCreate()
      modifies this
      ensures editingId == None && formData == BlankSkillForm && isModalOpen
      ensures submitting == old(submitting)
    {
      editingId := None;
      formData := BlankSkillForm;
      isModalOpen := true;
    }

    /** `handleEdit`: open the modal on the skill's values, keyed by its name. */
    method HandleEdit(s: Skill)
      modifies this
      ensures editingId == Some(s.name) && formData == EditForm(s) && isModalOpen
      ensures submitting == old(submitting)
    {
      editingId := Some(s.name);
      formData := EditForm(s);
      isModalOpen := true;
    }

    /** An input's `onChange`. */
    method HandleInput(e: SkillInput)
      modifies this
      ensures formData == ApplySkillInput(old(formData), e)
      ensures editingId == old(editingId) && isModalOpen == old(isModalOpen) && submitting == old(submitting)
    {
      match e {
        case NameInput(v) => formData := formData.(name := v);
        case IconInput(v) => formData := formData.(icon_url := v);
        case CategoryInput(c) => formData := formData.(category := c);
        case ProficiencyInput(v) => formData := formData.(proficiency := v);
      }
    }

    /** The cancel button and the backdrop close the modal. */
    method CloseModal()
      modifies this
      ensures !isModalOpen
      ensures editingId == old(editingId) && formData == old(formData) && submitting == old(submitting)
    {
      isModalOpen := false;
    }

    /** `handleSubmit`: send the write; `writeError` is what the backend
        answered. On success the list is refetched and the modal closes; on
        failure an alert is raised and the modal stays open. Either way
        `submitting` ends false. */
    method HandleSubmit(writeError: Option<string>) returns (write: SkillWrite, refetch: bool, alert: Option<string>)
      modifies this
      ensures write == SkillSubmitWrite(old(editingId), old(formData))
      ensures refetch <==> writeError.None?
      ensures isModalOpen == (if writeError.None? then false else old(isModalOpen))
      ensures alert == (if writeError.None? then None else Some(SkillSaveAlert))
      ensures !submitting
      ensures editingId == old(editingId) && formData == old(formData)
    {
      submitting := true;
      if editingId.Some? && editingId.value != "" {
        write := UpdateSkillNamed(editingId.value, formData);
      } else {
        write := InsertSkill(formData);
      }
      if writeError.None? {
        refetch := true;
        alert := None;
        isModalOpen := false;
      } else {
        refetch := false;
        alert := Some(SkillSaveAlert);
      }
      submitting := false;
    }
  }
}
