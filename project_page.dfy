/** The project page: the project with its manuals and the steps of the
    active manual, plus the admin's inline manual editor, the new-manual form
    and the new-step form. Every mutation is a single request whose outcome
    decides what happens next: on success the forms involved are reset or
    closed and a refetch is issued; on failure an alert is raised and the
    page state is left as it was, ready for a retry. */
module ProjectPage {
  import opened Common
  import opened Entities

  // ---------------------------------------------------------------------
  // Derived views

  /** The manuals the project carries (`[]` when absent). */
  function ManualsOf(project: Option<Project>): (ms: seq<Manual>)
    ensures project.Some? && project.value.manuals.Some? ==> ms == project.value.manuals.value
    ensures project.None? || project.value.manuals.None? ==> ms == []
  {
    if project.Some? && project.value.manuals.Some? then project.value.manuals.value else []
  }

  /** Position of the first active manual, if any. */
  function FirstActiveIndex(manuals: seq<Manual>): (r: Option<nat>)
    ensures r.None? <==> forall k :: 0 <= k < |manuals| ==> !manuals[k].isActive
    ensures r.Some? ==> r.value < |manuals| && manuals[r.value].isActive
    ensures r.Some? ==> forall k :: 0 <= k < r.value ==> !manuals[k].isActive
    decreases |manuals|
  {
    if manuals == [] then None
    else if manuals[0].isActive then Some(0)
    else
      match FirstActiveIndex(manuals[1..])
      case None => None
      case Some(i) => Some(i + 1)
  }

  /** `project?.manuals?.find((m) => m.isActive)`: the first manual whose
      `isActive` is set; absent when there is none (or no project, or no
      manuals). */
  function ActiveManual(project: Option<Project>): (m: Option<Manual>)
    ensures m.None? <==> forall k :: 0 <= k < |ManualsOf(project)| ==> !ManualsOf(project)[k].isActive
    ensures m.Some? ==>
      (exists i :: 0 <= i < |ManualsOf(project)| && ManualsOf(project)[i] == m.value &&
         m.value.isActive && forall k :: 0 <= k < i ==> !ManualsOf(project)[k].isActive)
  {
    match FirstActiveIndex(ManualsOf(project))
    case None => None
    case Some(i) => Some(ManualsOf(project)[i])
  }

  /** `activeManual?.steps || []`: the active manual's steps exactly as the
      API lists them (no sorting); none without an active manual. */
  function ActiveSteps(project: Option<Project>): (steps: seq<Step>)
    ensures ActiveManual(project).None? ==> steps == []
    ensures ActiveManual(project).Some? && ActiveManual(project).value.steps.Some? ==>
      steps == ActiveManual(project).value.steps.value
    ensures ActiveManual(project).Some? && ActiveManual(project).value.steps.None? ==> steps == []
  {
    var active := ActiveManual(project);
    if active.Some? && active.value.steps.Some? then active.value.steps.value else []
  }

  /** With at most one active manual (what the server maintains), the
      active manual is that one, wherever it sits in the list. */
  lemma SoleActiveManualIsFound(project: Project, i: nat)
    requires project.manuals.Some? && i < |project.manuals.value|
    requires project.manuals.value[i].isActive
    requires forall k :: 0 <= k < |project.manuals.value| && k != i ==> !project.manuals.value[k].isActive
    ensures ActiveManual(Some(project)) == Some(project.manuals.value[i])
  {
    var ms := project.manuals.value;
    assert ManualsOf(Some(project)) == ms;
    assert FirstActiveIndex(ms) == Some(i);
  }

  // ---------------------------------------------------------------------
  // Form records and requests

  /** The three text inputs of a manual. */
  datatype ManualField = Title | Description | Version

  /** `editFormData`: `{}` (every field absent) until a manual is being
      edited, then that manual's title, description and version. */
  datatype ManualDraft = ManualDraft(title: Option<string>, description: Option<string>, version: Option<string>)
  {
    function Get(field: ManualField): Option<string>
    {
      match field
      case Title => title
      case Description => description
      case Version => version
    }

    /** `{ ...editFormData, [field]: value }`. */
    function With(field: ManualField, value: string): (r: ManualDraft)
      ensures r.Get(field) == Some(value)
      ensures forall other :: other != field ==> r.Get(other) == Get(other)
    {
      match field
      case Title => this.(title := Some(value))
      case Description => this.(description := Some(value))
      case Version => this.(version := Some(value))
    }

    predicate IsComplete()
    {
      title.Some? && description.Some? && version.Some?
    }
  }

  /** `{}`. */
  const NoDraft := ManualDraft(None, None, None)

  /** The draft copied from a manual when its inline edit opens. */
  function DraftOf(manual: Manual): ManualDraft
  {
    ManualDraft(Some(manual.title), Some(manual.description), Some(manual.version))
  }

  /** `createFormData`, the new-manual form. */
  datatype ManualForm = ManualForm(title: string, description: string, version: string)
  {
    function Get(field: ManualField): string
    {
      match field
      case Title => title
      case Description => description
      case Version => version
    }

    /** `{ ...createFormData, [field]: value }`. */
    function With(field: ManualField, value: string): (r: ManualForm)
      ensures r.Get(field) == value
      ensures forall other :: other != field ==> r.Get(other) == Get(other)
    {
      match field
      case Title => this.(title := value)
      case Description => this.(description := value)
      case Version => this.(version := value)
    }
  }

  const BlankManualForm := ManualForm("", "", "")

  /** `createStepData`, the new-step form. */
  datatype StepForm = StepForm(description: string, imageUrl: string)

  const BlankStepForm := StepForm("", "")

  /** The body of a manual-create request: the project's id and the form. */
  datatype NewManual = NewManual(projectId: Id, title: string, description: string, version: string)

  /** The body of a step-create request: the active manual's id and the form. */
  datatype NewStep = NewStep(manualId: Id, description: string, imageUrl: string)

  /** The requests the page sends to the API. */
  datatype Request =
    | GetProject(projectId: Id)
    | GetManuals(projectId: Id)
    | UpdateManual(manualId: Id, changes: ManualDraft)
    | DeleteManual(manualId: Id)
    | SetActiveManual(projectId: Id, manualId: Id)
    | CreateManual(manual: NewManual)
    | CreateStep(step: NewStep)

  /** What a handler does outside the page state: the request it issues (if
      any), whether it raises an alert, and whether it issues a refetch. */
  datatype Effects = Effects(request: Option<Request>, alert: bool, refetch: bool)

  /** No request, no alert, no refetch. */
  const NoEffects := Effects(None, false, false)

  /** The effects of issuing `request`: a refetch when it succeeds, an alert
      when it fails. */
  function AfterCall(request: Request, outcome: CallOutcome): Effects
  {
    Effects(Some(request), outcome.Failed?, outcome.Succeeded?)
  }

  // ---------------------------------------------------------------------
  // Page state

  class ProjectPage {
    const projectId: Id
    var project: Option<Project>
    var manuals: seq<Manual>
    var isLoading: bool
    /** The load error message is set. */
    var loadFailed: bool
    /** The one manual in inline edit, if any. */
    var editingManualId: Option<Id>
    var editFormData: ManualDraft
    var showCreateForm: bool
    var createFormData: ManualForm
    var showCreateStepForm: bool
    var createStepData: StepForm

    /** The inline editor's draft is `{}` exactly when no manual is edited,
        and complete while one is. */
    ghost predicate Valid()
      reads this
    {
      && (editingManualId.None? ==> editFormData == NoDraft)
      && (editingManualId.Some? ==> editFormData.IsComplete())
    }

    /** Mounted for a project: loading, nothing fetched, no edit in progress,
        both create forms closed and blank. */
    constructor (projectId: Id)
      ensures Valid()
      ensures this.projectId == projectId && project == None && manuals == [] && isLoading && !loadFailed
      ensures editingManualId == None && editFormData == NoDraft
      ensures !showCreateForm && createFormData == BlankManualForm
      ensures !showCreateStepForm && createStepData == BlankStepForm
    {
      this.projectId := projectId;
      project, manuals, isLoading, loadFailed := None, [], true, false;
      editingManualId, editFormData := None, NoDraft;
      showCreateForm, createFormData := false, BlankManualForm;
      showCreateStepForm, createStepData := false, BlankStepForm;
    }

    /** `fetchProjectData`, run to completion: asks for the project and, only
        when logged in, for its manuals. If every request made succeeds, the
        page takes the project and the manuals (`[]` when logged out);
        otherwise it flags the load error and keeps what it had. */
    method FetchProjectData(isLoggedIn: bool, projectResponse: Response<Project>, manualsResponse: Response<seq<Manual>>)
      returns (requests: seq<Request>)
      modifies this`project, this`manuals, this`isLoading, this`loadFailed
      ensures requests == [GetProject(projectId)] + (if isLoggedIn then [GetManuals(projectId)] else [])
      ensures !isLoading
      ensures projectResponse.Ok? && (isLoggedIn ==> manualsResponse.Ok?) ==>
        && project == Some(projectResponse.data)
        && manuals == (if isLoggedIn then manualsResponse.data else [])
        && loadFailed == old(loadFailed)
      ensures !(projectResponse.Ok? && (isLoggedIn ==> manualsResponse.Ok?)) ==>
        project == old(project) && manuals == old(manuals) && loadFailed
    {
      isLoading := true;
      requests := [GetProject(projectId)] + (if isLoggedIn then [GetManuals(projectId)] else []);
      var manualsResult := if isLoggedIn then manualsResponse else Ok([]);
      if projectResponse.Ok? && manualsResult.Ok? {
        project := Some(projectResponse.data);
        manuals := manualsResult.data;
      } else {
        loadFailed := true;
      }
      isLoading := false;
    }

    /** `editingManualId === manual.id`: the manual renders in edit mode. */
    predicate InEditMode(manual: Manual)
      reads this
    {
      editingManualId == Some(manual.id)
    }

    /** `handleEditManual`: this manual becomes the one in edit mode, with
        its title, description and version copied into the draft. */
    method HandleEditManual(manual: Manual)
      requires Valid()
      modifies this`editingManualId, this`editFormData
      ensures Valid()
      ensures editingManualId == Some(manual.id) && editFormData == DraftOf(manual)
    {
      editingManualId := Some(manual.id);
      editFormData := DraftOf(manual);
    }

    /** `handleCancelEdit`: no manual in edit mode, draft back to `{}`. */
    method HandleCancelEdit()
      requires Valid()
      modifies this`editingManualId, this`editFormData
      ensures Valid()
      ensures editingManualId == None && editFormData == NoDraft
    {
      editingManualId := None;
      editFormData := NoDraft;
    }

    /** An input of the inline editor (shown only while a manual is edited)
        sets its field of the draft. */
    method ChangeEditField(field: ManualField, value: string)
      requires Valid() && editingManualId.Some?
      modifies this`editFormData
      ensures Valid()
      ensures editFormData == old(editFormData).With(field, value)
    {
      editFormData := editFormData.With(field, value);
    }

    /** `handleSaveEdit`: sends the draft as the manual's update. On success
        the inline edit closes and a refetch is issued; on failure an alert
        is raised and the edit stays open as it was. */
    method HandleSaveEdit(manualId: Id, outcome: CallOutcome) returns (effects: Effects)
      requires Valid()
      modifies this`editingManualId, this`editFormData
      ensures Valid()
      ensures effects.request == Some(UpdateManual(manualId, old(editFormData)))
      ensures old(editingManualId).Some? ==> effects.request.value.changes.IsComplete()
      ensures outcome.Succeeded? ==>
        editingManualId == None && editFormData == NoDraft && effects.refetch && !effects.alert
      ensures outcome.Failed? ==>
        editingManualId == old(editingManualId) && editFormData == old(editFormData) && effects.alert && !effects.refetch
    {
      effects := AfterCall(UpdateManual(manualId, editFormData), outcome);
      if outcome.Succeeded? {
        editingManualId := None;
        editFormData := NoDraft;
      }
    }

    /** `handleDeleteManual`: without the user's confirmation nothing is
        sent; with it, the delete is sent and either a refetch (success) or
        an alert (failure) follows. The page state never changes. */
    method HandleDeleteManual(manualId: Id, confirmed: bool, outcome: CallOutcome) returns (effects: Effects)
      ensures !confirmed ==> effects == NoEffects
      ensures confirmed ==> effects.request == Some(DeleteManual(manualId))
      ensures confirmed ==> (effects.refetch <==> outcome.Succeeded?) && (effects.alert <==> outcome.Failed?)
    {
      if confirmed {
        effects := AfterCall(DeleteManual(manualId), outcome);
      } else {
        effects := NoEffects;
      }
    }

    /** `handleSetActive`: asks the server to make this manual the project's
        active one (the server keeps it exclusive); refetch on success, alert
        on failure. The page state never changes. */
    method HandleSetActive(manualId: Id, outcome: CallOutcome) returns (effects: Effects)
      ensures effects.request == Some(SetActiveManual(projectId, manualId))
      ensures (effects.refetch <==> outcome.Succeeded?) && (effects.alert <==> outcome.Failed?)
    {
      effects := AfterCall(SetActiveManual(projectId, manualId), outcome);
    }

    /** "+ Create New Manual" opens the new-manual form. */
    method OpenCreateForm()
      modifies this`showCreateForm
      ensures showCreateForm
    {
      showCreateForm := true;
    }

    /** The new-manual form's Cancel closes and blanks it. */
    method CancelCreateForm()
      modifies this`showCreateForm, this`createFormData
      ensures !showCreateForm && createFormData == BlankManualForm
    {
      showCreateForm := false;
      createFormData := BlankManualForm;
    }

    /** An input of the new-manual form sets its field. */
    method ChangeCreateField(field: ManualField, value: string)
      modifies this`createFormData
      ensures createFormData == old(createFormData).With(field, value)
    {
      createFormData := createFormData.With(field, value);
    }

    /** `handleCreateManual`: sends the project's id with the form's fields.
        On success the form closes blank and a refetch is issued; on failure
        an alert is raised and the form stays as it was. */
    method HandleCreateManual(outcome: CallOutcome) returns (effects: Effects)
      modifies this`showCreateForm, this`createFormData
      ensures effects.request == Some(CreateManual(NewManual(projectId,
        old(createFormData).title, old(createFormData).description, old(createFormData).version)))
      ensures outcome.Succeeded? ==>
        !showCreateForm && createFormData == BlankManualForm && effects.refetch && !effects.alert
      ensures outcome.Failed? ==>
        showCreateForm == old(showCreateForm) && createFormData == old(createFormData) && effects.alert && !effects.refetch
    {
      var manualData := NewManual(projectId, createFormData.title, createFormData.description, createFormData.version);
      effects := AfterCall(CreateManual(manualData), outcome);
      if outcome.Succeeded? {
        showCreateForm := false;
        createFormData := BlankManualForm;
      }
    }

    /** The "+" under the steps opens the new-step form. */
    method OpenCreateStepForm()
      modifies this`showCreateStepForm
      ensures showCreateStepForm
    {
      showCreateStepForm := true;
    }

    /** The new-step form's Cancel closes and blanks it. */
    method CancelCreateStepForm()
      modifies this`showCreateStepForm, this`createStepData
      ensures !showCreateStepForm && createStepData == BlankStepForm
    {
      showCreateStepForm := false;
      createStepData := BlankStepForm;
    }

    /** The new-step description input. */
    method ChangeStepDescription(value: string)
      modifies this`createStepData
      ensures createStepData == old(createStepData).(description := value)
    {
      createStepData := createStepData.(description := value);
    }

    /** `handleImageUploadStep`: the uploaded image's URL replaces only the
        new step's `image_url`. */
    method HandleImageUploadStep(imageUrl: string)
      modifies this`createStepData
      ensures createStepData == old(createStepData).(imageUrl := imageUrl)
    {
      createStepData := createStepData.(imageUrl := imageUrl);
    }

    /** `handleCreateStep`: with no active manual it raises the alert, sends
        nothing and changes nothing. Otherwise it sends the active manual's
        id with the form; on success the form closes blank and a refetch is
        issued, on failure an alert is raised and the form stays as it was. */
    method HandleCreateStep(outcome: CallOutcome) returns (effects: Effects)
      modifies this`showCreateStepForm, this`createStepData
      ensures ActiveManual(project).None? ==>
        effects == Effects(None, true, false)
        && showCreateStepForm == old(showCreateStepForm) && createStepData == old(createStepData)
      ensures ActiveManual(project).Some? ==> effects.request == Some(CreateStep(NewStep(
        ActiveManual(project).value.id, old(createStepData).description, old(createStepData).imageUrl)))
      ensures ActiveManual(project).Some? && outcome.Succeeded? ==>
        !showCreateStepForm && createStepData == BlankStepForm && effects.refetch && !effects.alert
      ensures ActiveManual(project).Some? && outcome.Failed? ==>
        showCreateStepForm == old(showCreateStepForm) && createStepData == old(createStepData)
        && effects.alert && !effects.refetch
    {
      var activeManual := ActiveManual(project);
      if activeManual.None? {
        effects := Effects(None, true, false);
        return;
      }
      var stepData := NewStep(activeManual.value.id, createStepData.description, createStepData.imageUrl);
      effects := AfterCall(CreateStep(stepData), outcome);
      if outcome.Succeeded? {
        showCreateStepForm := false;
        createStepData := BlankStepForm;
      }
    }

    /** The new-step Save button's `disabled` condition, negated. */
    predicate SaveStepEnabled()
      reads this
    {
      createStepData.description != "" && createStepData.imageUrl != ""
    }

    /** A click on the new-step Save button: a disabled button does nothing;
        an enabled one runs `handleCreateStep`. So a step is only ever sent
        with a non-empty description and a non-empty image URL. */
    method ClickSaveStep(outcome: CallOutcome) returns (effects: Effects)
      modifies this`showCreateStepForm, this`createStepData
      ensures effects.request.Some? ==> effects.request.value.CreateStep?
      ensures effects.request.Some? ==>
        effects.request.value.step.description != "" && effects.request.value.step.imageUrl != ""
      ensures old(createStepData.description) == "" || old(createStepData.imageUrl) == "" ==>
        effects == NoEffects && showCreateStepForm == old(showCreateStepForm) && createStepData == old(createStepData)
      ensures old(createStepData.description) != "" && old(createStepData.imageUrl) != "" && ActiveManual(project).None? ==>
        effects == Effects(None, true, false)
        && showCreateStepForm == old(showCreateStepForm) && createStepData == old(createStepData)
      ensures old(createStepData.description) != "" && old(createStepData.imageUrl) != "" && ActiveManual(project).Some? ==>
        effects.request == Some(CreateStep(NewStep(
          ActiveManual(project).value.id, old(createStepData).description, old(createStepData).imageUrl)))
        && (outcome.Succeeded? ==>
              !showCreateStepForm && createStepData == BlankStepForm && effects.refetch && !effects.alert)
        && (outcome.Failed? ==>
              showCreateStepForm == old(showCreateStepForm) && createStepData == old(createStepData)
              && effects.alert && !effects.refetch)
    {
      if SaveStepEnabled() {
        effects := HandleCreateStep(outcome);
      } else {
        effects := NoEffects;
      }
    }
  }

  /** At most one manual renders in edit mode when manual ids are distinct:
      the page tracks a single editing id, not a set. */
  lemma AtMostOneManualInEditMode(page: ProjectPage, manuals: seq<Manual>, i: nat, j: nat)
    requires i < |manuals| && j < |manuals|
    requires forall a, b :: 0 <= a < b < |manuals| ==> manuals[a].id != manuals[b].id
    requires page.InEditMode(manuals[i]) && page.InEditMode(manuals[j])
    ensures i == j
  {
  }
}
