/** The create/edit project modal. Its `formData` record is local state: a
    populate effect fills it from the project being edited (or blanks it for
    a new one), the inputs overwrite one field at a time, and submit hands
    the whole record to the parent together with the project's id. */
module ProjectForm {
  import opened Common
  import opened Entities
  import TechnologySelector

  /** The text inputs of the form, by their `name` attribute. */
  datatype TextField =
    | Name
    | DescriptionShort
    | ClientGithubUrl
    | ClientDeployUrl
    | ServerGithubUrl
    | ServerDeployUrl

  /** The form's state and the payload it submits. */
  datatype FormData = FormData(
    name: string,
    descriptionShort: string,
    clientGithubUrl: string,
    clientDeployUrl: string,
    serverGithubUrl: string,
    serverDeployUrl: string,
    imageUrl: string,
    technologyIds: seq<Id>)
  {
    /** The value shown in one text input. */
    function Get(field: TextField): string
    {
      match field
      case Name => name
      case DescriptionShort => descriptionShort
      case ClientGithubUrl => clientGithubUrl
      case ClientDeployUrl => clientDeployUrl
      case ServerGithubUrl => serverGithubUrl
      case ServerDeployUrl => serverDeployUrl
    }

    /** `{ ...prev, [name]: value }`: the named field takes the value and
        every other field keeps its own. */
    function With(field: TextField, value: string): (r: FormData)
      ensures r.Get(field) == value
      ensures forall other :: other != field ==> r.Get(other) == Get(other)
      ensures r.imageUrl == imageUrl && r.technologyIds == technologyIds
    {
      match field
      case Name => this.(name := value)
      case DescriptionShort => this.(descriptionShort := value)
      case ClientGithubUrl => this.(clientGithubUrl := value)
      case ClientDeployUrl => this.(clientDeployUrl := value)
      case ServerGithubUrl => this.(serverGithubUrl := value)
      case ServerDeployUrl => this.(serverDeployUrl := value)
    }
  }

  /** The blank form of "Add New Project". */
  const EmptyForm := FormData("", "", "", "", "", "", "", [])

  /** The project's value behind one text input. */
  function ProjectText(project: Project, field: TextField): Option<string>
  {
    match field
    case Name => project.name
    case DescriptionShort => project.descriptionShort
    case ClientGithubUrl => project.clientGithubUrl
    case ClientDeployUrl => project.clientDeployUrl
    case ServerGithubUrl => project.serverGithubUrl
    case ServerDeployUrl => project.serverDeployUrl
  }

  /** `project?.id`. */
  function ProjectId(project: Option<Project>): (r: Option<Id>)
    ensures r.Some? <==> project.Some?
    ensures r.Some? ==> r.value == project.value.id
  {
    if project.Some? then Some(project.value.id) else None
  }

  /** `techStack?.map((ts) => ts.technology.id) || []`: the stack's
      technology ids in stack order, or none when there is no stack. */
  function TechnologyIds(techStack: Option<seq<TechStackEntry>>): (r: seq<Id>)
    ensures techStack.None? ==> r == []
    ensures techStack.Some? ==> |r| == |techStack.value|
    ensures techStack.Some? ==> forall k :: 0 <= k < |r| ==> r[k] == techStack.value[k].technology.id
  {
    if techStack.None? then []
    else seq(|techStack.value|, k requires 0 <= k < |techStack.value| => techStack.value[k].technology.id)
  }

  /** The form filled from a project being edited: each text input holds the
      project's value or `""` when that is missing, the image likewise, and
      the selected technologies are those of its stack. */
  function FromProject(project: Project): (r: FormData)
    ensures forall field :: r.Get(field) == OrEmpty(ProjectText(project, field))
    ensures r.imageUrl == OrEmpty(project.imageUrl)
    ensures r.technologyIds == TechnologyIds(project.techStack)
  {
    FormData(
      OrEmpty(project.name),
      OrEmpty(project.descriptionShort),
      OrEmpty(project.clientGithubUrl),
      OrEmpty(project.clientDeployUrl),
      OrEmpty(project.serverGithubUrl),
      OrEmpty(project.serverDeployUrl),
      OrEmpty(project.imageUrl),
      TechnologyIds(project.techStack))
  }

  /** Opening the form on a project shows, among the catalog, exactly the
      entries whose id is the id of a technology in the project's stack. */
  lemma EditShowsProjectStackSelected(catalog: seq<Technology>, project: Project)
    requires project.techStack.Some?
    ensures forall t :: t in TechnologySelector.SelectedTechs(catalog, FromProject(project).technologyIds) <==>
      t in catalog && exists k :: 0 <= k < |project.techStack.value| && project.techStack.value[k].technology.id == t.id
  {
    var ids := FromProject(project).technologyIds;
    assert forall x :: x in ids <==>
      exists k :: 0 <= k < |project.techStack.value| && project.techStack.value[k].technology.id == x
    by {
      forall x | x in ids
        ensures exists k :: 0 <= k < |project.techStack.value| && project.techStack.value[k].technology.id == x
      {
        var k :| 0 <= k < |ids| && ids[k] == x;
        assert project.techStack.value[k].technology.id == x;
      }
    }
  }

  class ProjectForm {
    /** The form's editable copy of the project. */
    var formData: FormData
    /** The technology catalog the picker offers. */
    var allTechnologies: seq<Technology>
    /** The dependencies `(isOpen, project?.id)` the populate effect last ran
        with; `None` before the first render. */
    var populatedFor: Option<(bool, Option<Id>)>

    constructor ()
      ensures formData == EmptyForm && allTechnologies == [] && populatedFor == None
    {
      formData := EmptyForm;
      allTechnologies := [];
      populatedFor := None;
    }

    /** The populate effect's body: while closed it changes nothing; opened
        on a project it fills the form from it; opened without one it blanks
        the form, whatever it held before. */
    method PopulateEffect(isOpen: bool, project: Option<Project>)
      modifies this`formData
      ensures !isOpen ==> formData == old(formData)
      ensures isOpen && project.Some? ==> formData == FromProject(project.value)
      ensures isOpen && project.None? ==> formData == EmptyForm
    {
      if isOpen {
        if project.Some? {
          formData := FromProject(project.value);
        } else {
          formData := EmptyForm;
        }
      }
    }

    /** A render with these props. The populate effect runs only when
        `isOpen` or `project?.id` differs from its last run, so a re-render
        for the same open project keeps the edits in progress. */
    method Render(isOpen: bool, project: Option<Project>)
      modifies this`formData, this`populatedFor
      ensures populatedFor == Some((isOpen, ProjectId(project)))
      ensures old(populatedFor) == Some((isOpen, ProjectId(project))) ==> formData == old(formData)
      ensures old(populatedFor) != Some((isOpen, ProjectId(project))) ==>
        formData == (if !isOpen then old(formData)
                     else if project.Some? then FromProject(project.value)
                     else EmptyForm)
    {
      if populatedFor != Some((isOpen, ProjectId(project))) {
        PopulateEffect(isOpen, project);
        populatedFor := Some((isOpen, ProjectId(project)));
      }
    }

    /** The catalog effect's body: when open it asks for the catalog (the
        returned flag) and keeps it if the request succeeds; a failure is
        only logged and leaves the previous catalog. */
    method CatalogEffect(isOpen: bool, response: Response<seq<Technology>>) returns (requested: bool)
      modifies this`allTechnologies
      ensures requested == isOpen
      ensures allTechnologies == (if isOpen && response.Ok? then response.data else old(allTechnologies))
    {
      requested := isOpen;
      if isOpen && response.Ok? {
        allTechnologies := response.data;
      }
    }

    /** `handleChange`: the named input takes the value; nothing else changes. */
    method HandleChange(field: TextField, value: string)
      modifies this`formData
      ensures formData == old(formData).With(field, value)
    {
      formData := formData.With(field, value);
    }

    /** `handleTechnologyChange`: the picker's new list replaces `technologyIds` only. */
    method HandleTechnologyChange(selectedIds: seq<Id>)
      modifies this`formData
      ensures formData == old(formData).(technologyIds := selectedIds)
    {
      formData := formData.(technologyIds := selectedIds);
    }

    /** `handleImageUpload`: the uploaded image's URL replaces `image_url` only. */
    method HandleImageUpload(imageUrl: string)
      modifies this`formData
      ensures formData == old(formData).(imageUrl := imageUrl)
    {
      formData := formData.(imageUrl := imageUrl);
    }

    /** `handleSubmit`: calls `onSubmit` with the current form data and the
        project's id, or with no id for a new project. Nothing changes. */
    method HandleSubmit(project: Option<Project>) returns (payload: FormData, projectId: Option<Id>)
      ensures payload == formData
      ensures projectId.Some? <==> project.Some?
      ensures project.Some? ==> projectId.value == project.value.id
    {
      payload := formData;
      projectId := ProjectId(project);
    }
  }
}
