# portfolio-client: a Dafny model of its picker, dedup and form/page state logic

The portfolio client is a React single-page application over a REST API.
Almost all of it is markup and HTTP calls. This project models the small
part that makes decisions, and proves what that part promises:

- **Technology picker** (`TechnologySelector`, module `TechnologySelector`).
  It splits the catalog into selected and available entries by id
  membership. Clicking an entry appends an id to the selected list or
  removes every copy of it. The model proves that the two lists partition
  the catalog (as multisets) and keep catalog order. It proves that adding
  an unselected id and then removing it restores the list exactly, that the
  lists depend only on which ids are selected, and that adding from the
  available list never creates a duplicate.
- **Unique technologies of the home page** (`extractUniqueTechnologies`,
  module `HomePage`). The nested loop over an insertion-ordered map is an
  imperative method. It is proved equal to a reference deduplication
  `UniqueById` of all stack technologies. Lemmas about `UniqueById` state
  what it guarantees: distinct ids, every stack id covered, every element
  taken from a stack, the first occurrence kept, first-seen order, and an
  empty result for empty input. A project without a `techStack` makes the
  source throw; the method returns `None` in that case.
- **Project form** (`ProjectForm`). A class holds `formData`. The populate
  effect fills it from the edited project, or blanks it for a new one, and
  changes nothing while the form is closed. It re-runs only when `isOpen`
  or `project?.id` changes. Each handler replaces exactly one field, and
  submit hands over the data and the project id.
- **Project page** (`ProjectPage`). Pure functions derive the active manual
  (the first with `isActive`) and its steps. A class holds the page state.
  Each service call's outcome is a parameter, and each handler returns its
  effects: the request issued, whether an alert is raised, and whether a
  refetch is issued. On success the forms involved are reset or closed and
  a refetch is issued. On failure there is an alert and the state is left
  as it was. Step creation with no active manual sends nothing. Delete
  without confirmation sends nothing. A disabled Save cannot send a step.
- **Step inline editor** (`StepItem`) and **technology creation form**
  (`TechnologyForm`). These are classes whose handlers set their state
  fields. The model covers reset on open or edit, cancel restoring the
  step's values, which fields each handler changes, the image error flag,
  and the visibility rules. Those rules use JavaScript's `trim`, modelled
  in `Common.Trim` with the ECMAScript whitespace set.

Behaviours of the code that the model keeps as they are:

- Steps are shown in the order the API returns them. Nothing sorts them by
  `step_number`, so `ActiveSteps` returns `activeManual.steps` as given.
- `handleAdd` appends even an id that is already selected, so `AddId` adds
  a second copy. `AddSelectedIdKeepsLists` shows the duplicate changes
  neither displayed list.
- `handleSubmit` does not require a selected technology. It submits whatever
  `formData` holds.
- Once the load error is set, no later successful fetch clears it
  (`FetchProjectData` keeps `loadFailed`).

## Model

| member | source | states |
|---|---|---|
| Common.TrimStart | src/components/StepItem/StepItem.jsx:119 | leading whitespace removed: a suffix of the input, all dropped characters whitespace, the rest not starting with whitespace |
| Common.OrEmpty | src/components/ProjectForm/ProjectForm.jsx:43-49 | the fallback to `""` for a string that may be missing: the string itself when present; `""` exactly when it is missing or empty |
| Common.TrimEnd | src/components/StepItem/StepItem.jsx:119 | trailing whitespace removed: a prefix of the input, all dropped characters whitespace, the rest not ending with whitespace |
| Common.Trim | src/components/TechnologyForm/TechnologyForm.jsx:115 | `trim()` is empty exactly when every character is whitespace; a non-empty result neither starts nor ends with whitespace |
| Common.IsNonBlank | src/components/TechnologyForm/TechnologyForm.jsx:115 | `s && s.trim() !== ""` holds exactly when `s` has a non-whitespace character |
| Common.IsPresentAndNonBlank | src/components/StepItem/StepItem.jsx:119 | the same guard on a possibly missing value: present and holding a non-whitespace character |
| TechnologySelector.Partition | src/components/TechnologySelector/TechnologySelector.jsx:3-4 | the filter keeps exactly the entries whose id is (or is not) selected, with the catalog's multiplicities, as a subsequence of the catalog |
| TechnologySelector.SelectedTechs | src/components/TechnologySelector/TechnologySelector.jsx:3 | an entry is listed iff it is in the catalog and its id is selected; catalog order is kept |
| TechnologySelector.AvailableTechs | src/components/TechnologySelector/TechnologySelector.jsx:4 | an entry is listed iff it is in the catalog and its id is not selected; catalog order is kept |
| TechnologySelector.PartitionCoversCatalog | src/components/TechnologySelector/TechnologySelector.jsx:3-4 | the two lists' multisets add up to the catalog's, their lengths sum to its length, and each catalog entry is in exactly one |
| TechnologySelector.AddId | src/components/TechnologySelector/TechnologySelector.jsx:6-8 | the old ids unchanged and in order, with the new id appended; nothing prevents a duplicate, which adds one more copy |
| TechnologySelector.RemoveId | src/components/TechnologySelector/TechnologySelector.jsx:10-12 | every copy of the id removed; all other ids kept with their multiplicities, in their original order |
| TechnologySelector.RemoveAbsentId | src/components/TechnologySelector/TechnologySelector.jsx:10-12 | removing an id that is not there returns the list unchanged |
| TechnologySelector.RemoveUndoesAdd | src/components/TechnologySelector/TechnologySelector.jsx:6-12 | adding an unselected id and then removing it restores the original list exactly |
| TechnologySelector.PartitionDependsOnMembersOnly | src/components/TechnologySelector/TechnologySelector.jsx:3-4 | the lists depend only on which ids are selected, not on their order or repetitions |
| TechnologySelector.AddSelectedIdKeepsLists | src/components/TechnologySelector/TechnologySelector.jsx:6-8 | the duplicate created by adding an already-selected id changes neither list |
| TechnologySelector.AddMovesEntry | src/components/TechnologySelector/TechnologySelector.jsx:3-8 | after an add, the entries with that id move from available to selected and no other entry moves |
| TechnologySelector.RemoveMovesEntry | src/components/TechnologySelector/TechnologySelector.jsx:3-12 | after a remove, the entries with that id move from selected to available and no other entry moves |
| TechnologySelector.AddAvailableKeepsDistinct | src/components/TechnologySelector/TechnologySelector.jsx:72-76 | adding an available entry, the only add the picker offers, to a duplicate-free list keeps it duplicate-free |
| HomePage.AllStackTechnologies | src/pages/HomePage/HomePage.jsx:10-11 | the order of the nested walk: projects in order, each stack in entry order (its members are stated by `AllStackTechnologiesMembers`, its step by `WalkOneMoreProject`) |
| HomePage.AllStackTechnologiesMembers | src/pages/HomePage/HomePage.jsx:10-11 | the walk over all stacks visits exactly the technologies named by some project's stack |
| HomePage.UniqueById | src/pages/HomePage/HomePage.jsx:12-13 | the reference deduplication has the same ids as its input, takes every element from it, and is no longer |
| HomePage.FirstIndexOf | src/pages/HomePage/HomePage.jsx:12 | the first position where an id occurs: it holds that id and no earlier position does |
| HomePage.UniqueByIdKeepsFirstSeen | src/pages/HomePage/HomePage.jsx:10-17 | each kept technology is the first occurrence of its id, and the result follows first-seen order |
| HomePage.UniqueByIdHasDistinctIds | src/pages/HomePage/HomePage.jsx:12-13 | no two result elements share an id |
| HomePage.UniqueTechnologiesCoverStacks | src/pages/HomePage/HomePage.jsx:10-15 | every id in any stack appears in the result, and every result element comes from some stack |
| HomePage.EmptyStacksGiveNoTechnologies | src/pages/HomePage/HomePage.jsx:9-17 | no projects, or only empty stacks, give an empty result |
| HomePage.UniqueByIdStep | src/pages/HomePage/HomePage.jsx:12-14 | one more technology is skipped when its id was seen and appended otherwise |
| HomePage.HoldsAppend | src/pages/HomePage/HomePage.jsx:13 | `techMap.set` of an absent id appends that technology to the values in insertion order |
| HomePage.HoldsAfterStep | src/pages/HomePage/HomePage.jsx:12-14 | inserting only unseen ids keeps the map holding the deduplication of the technologies walked so far |
| HomePage.WalkOneMoreProject | src/pages/HomePage/HomePage.jsx:10-11 | walking one more project extends the walk by that project's stack |
| HomePage.InsertStack | src/pages/HomePage/HomePage.jsx:11-15 | the inner loop over one stack extends the map from the deduplication of the walk so far to that of the walk plus this stack |
| HomePage.ValuesInInsertionOrder | src/pages/HomePage/HomePage.jsx:17 | `Array.from(techMap.values())` reads back the list the map holds, in insertion order |
| HomePage.ExtractUniqueTechnologies | src/pages/HomePage/HomePage.jsx:8-18 | the map-based loop returns exactly `UniqueById` of all stack technologies, or fails exactly when some project has no stack |
| ProjectForm.FormData.With | src/components/ProjectForm/ProjectForm.jsx:69-75 | the named input takes the value and every other field keeps its own |
| ProjectForm.TechnologyIds | src/components/ProjectForm/ProjectForm.jsx:50 | the stack mapped to technology ids in stack order, or `[]` without a stack |
| ProjectForm.ProjectId | src/components/ProjectForm/ProjectForm.jsx:98 | `project?.id`: present exactly when there is a project, and then its id |
| ProjectForm.FromProject | src/components/ProjectForm/ProjectForm.jsx:40-51 | each text field is the project's value or `""` when missing, the image likewise, and the ids come from the stack |
| ProjectForm.EditShowsProjectStackSelected | src/components/ProjectForm/ProjectForm.jsx:50 | opened on a project, the picker shows as selected exactly the catalog entries whose id is in the project's stack |
| ProjectForm.ProjectForm.constructor | src/components/ProjectForm/ProjectForm.jsx:8-20 | the form starts blank with an empty catalog, and the populate effect has not run yet |
| ProjectForm.ProjectForm.PopulateEffect | src/components/ProjectForm/ProjectForm.jsx:37-65 | while closed nothing changes; opened on a project it fills from it; opened without one it blanks everything |
| ProjectForm.ProjectForm.Render | src/components/ProjectForm/ProjectForm.jsx:37-67 | the populate effect runs only when `isOpen` or `project?.id` changed, so re-renders keep in-progress edits |
| ProjectForm.ProjectForm.CatalogEffect | src/components/ProjectForm/ProjectForm.jsx:23-34 | the catalog is requested exactly when open, and replaced only by a successful response |
| ProjectForm.ProjectForm.HandleChange | src/components/ProjectForm/ProjectForm.jsx:69-75 | only the named field changes |
| ProjectForm.ProjectForm.HandleTechnologyChange | src/components/ProjectForm/ProjectForm.jsx:77-82 | only `technologyIds` changes |
| ProjectForm.ProjectForm.HandleImageUpload | src/components/ProjectForm/ProjectForm.jsx:84-89 | only `image_url` changes |
| ProjectForm.ProjectForm.HandleSubmit | src/components/ProjectForm/ProjectForm.jsx:96-99 | submits the current form data with the project's id, or with no id when there is no project |
| StepItem.ShowsConnector | src/components/StepItem/StepItem.jsx:53 | the connecting line is drawn exactly when the step is not the last one |
| StepItem.StepItem.constructor | src/components/StepItem/StepItem.jsx:7-11 | the item starts out of edit mode, with the draft holding the step's description and image |
| StepItem.StepItem.HandleEdit | src/components/StepItem/StepItem.jsx:13-19 | enters edit mode with the draft reloaded from the step |
| StepItem.StepItem.HandleCancel | src/components/StepItem/StepItem.jsx:21-27 | leaves edit mode, discarding edits by restoring the draft from the step |
| StepItem.StepItem.HandleSave | src/components/StepItem/StepItem.jsx:29-40 | sends the draft; on success it leaves edit mode and notifies the page, on failure it alerts and stays as it was |
| StepItem.StepItem.HandleDescriptionChange | src/components/StepItem/StepItem.jsx:42-44 | only the draft's description changes |
| StepItem.StepItem.HandleImageUpload | src/components/StepItem/StepItem.jsx:46-48 | only the draft's image changes |
| StepItem.StepItem.ShowsImage | src/components/StepItem/StepItem.jsx:119 | the image shows exactly when not editing and the URL is present with a non-whitespace character |
| TechnologyForm.TechDraft.With | src/components/TechnologyForm/TechnologyForm.jsx:26-31 | the named field takes the value and every other field keeps its own |
| TechnologyForm.ResetDraft | src/components/TechnologyForm/TechnologyForm.jsx:16-21 | blank text fields; the category is the first category's id, or `""` when there are no categories |
| TechnologyForm.TechnologyForm.constructor | src/components/TechnologyForm/TechnologyForm.jsx:4-11 | the form starts blank with no image error |
| TechnologyForm.TechnologyForm.ResetEffect | src/components/TechnologyForm/TechnologyForm.jsx:14-24 | when open, the fields are reset and the image error cleared; while closed nothing changes |
| TechnologyForm.TechnologyForm.HandleChange | src/components/TechnologyForm/TechnologyForm.jsx:26-37 | only the named field changes; the image error clears when the logo URL changes and is otherwise kept |
| TechnologyForm.TechnologyForm.HandleImageError | src/components/TechnologyForm/TechnologyForm.jsx:47-49 | sets the image error |
| TechnologyForm.TechnologyForm.HandleImageLoad | src/components/TechnologyForm/TechnologyForm.jsx:51-53 | clears the image error |
| TechnologyForm.TechnologyForm.HandleSubmit | src/components/TechnologyForm/TechnologyForm.jsx:39-45 | submits the current form data unchanged |
| TechnologyForm.TechnologyForm.PreviewShown | src/components/TechnologyForm/TechnologyForm.jsx:115-136 | the preview shows exactly when the logo URL has a non-whitespace character; inside it, the error message shows exactly when the image failed to load |
| ProjectPage.FirstActiveIndex | src/pages/ProjectPage/ProjectPage.jsx:175 | the position of the first manual with `isActive`, or none exactly when no manual is active |
| ProjectPage.ManualsOf | src/pages/ProjectPage/ProjectPage.jsx:175 | `project?.manuals`: the project's manuals when both are present, else `[]`, on which `find` finds nothing |
| ProjectPage.ActiveManual | src/pages/ProjectPage/ProjectPage.jsx:175 | the first manual with `isActive` set, absent exactly when there is none |
| ProjectPage.ActiveSteps | src/pages/ProjectPage/ProjectPage.jsx:176 | the active manual's steps exactly as given, unsorted; `[]` without an active manual or without steps |
| ProjectPage.SoleActiveManualIsFound | src/pages/ProjectPage/ProjectPage.jsx:175 | when only one manual is active, wherever it is in the list, it is the active manual |
| ProjectPage.ManualDraft.With | src/pages/ProjectPage/ProjectPage.jsx:303-338 | the edited manual field takes the value and the other draft fields keep theirs |
| ProjectPage.ManualForm.With | src/pages/ProjectPage/ProjectPage.jsx:422-457 | the new-manual field takes the value and the other fields keep theirs |
| ProjectPage.ProjectPage.constructor | src/pages/ProjectPage/ProjectPage.jsx:20-40 | the page starts loading, with nothing fetched, no manual edited, and both create forms closed and blank |
| ProjectPage.ProjectPage.FetchProjectData | src/pages/ProjectPage/ProjectPage.jsx:49-67 | manuals are requested only when logged in, else the list is `[]`; on failure the load error is set and the data kept |
| ProjectPage.ProjectPage.HandleEditManual | src/pages/ProjectPage/ProjectPage.jsx:70-77 | the single editing id becomes the manual's id, and the draft copies its title, description and version |
| ProjectPage.ProjectPage.HandleCancelEdit | src/pages/ProjectPage/ProjectPage.jsx:79-82 | no manual is edited and the draft is `{}` |
| ProjectPage.ProjectPage.ChangeEditField | src/pages/ProjectPage/ProjectPage.jsx:303-338 | only the edited draft field changes |
| ProjectPage.ProjectPage.InEditMode | src/pages/ProjectPage/ProjectPage.jsx:300 | `editingManualId === manual.id`: the manual renders its inline editor (predicate; used by `AtMostOneManualInEditMode`) |
| ProjectPage.ProjectPage.HandleSaveEdit | src/pages/ProjectPage/ProjectPage.jsx:84-96 | sends the draft, which is complete while a manual is edited; on success the edit closes and a refetch is issued, on failure it alerts and nothing changes |
| ProjectPage.ProjectPage.HandleDeleteManual | src/pages/ProjectPage/ProjectPage.jsx:98-110 | without confirmation there is no request; with it, a delete followed by a refetch on success or an alert on failure |
| ProjectPage.ProjectPage.HandleSetActive | src/pages/ProjectPage/ProjectPage.jsx:112-122 | sends set-active for (project, manual), followed by a refetch on success or an alert on failure |
| ProjectPage.ProjectPage.OpenCreateForm | src/pages/ProjectPage/ProjectPage.jsx:411-412 | opens the new-manual form |
| ProjectPage.ProjectPage.CancelCreateForm | src/pages/ProjectPage/ProjectPage.jsx:465-472 | closes and blanks the new-manual form |
| ProjectPage.ProjectPage.ChangeCreateField | src/pages/ProjectPage/ProjectPage.jsx:422-457 | only the edited new-manual field changes |
| ProjectPage.ProjectPage.HandleCreateManual | src/pages/ProjectPage/ProjectPage.jsx:124-141 | the payload is the project id plus the form; on success the form closes blank with a refetch, on failure it alerts and nothing changes |
| ProjectPage.ProjectPage.OpenCreateStepForm | src/pages/ProjectPage/ProjectPage.jsx:508-509 | opens the new-step form |
| ProjectPage.ProjectPage.CancelCreateStepForm | src/pages/ProjectPage/ProjectPage.jsx:557-561 | closes and blanks the new-step form |
| ProjectPage.ProjectPage.ChangeStepDescription | src/pages/ProjectPage/ProjectPage.jsx:527-534 | only the new step's description changes |
| ProjectPage.ProjectPage.HandleImageUploadStep | src/pages/ProjectPage/ProjectPage.jsx:145-147 | only the new step's `image_url` changes |
| ProjectPage.ProjectPage.HandleCreateStep | src/pages/ProjectPage/ProjectPage.jsx:149-172 | with no active manual: an alert, no request, no change; otherwise the payload is the active manual's id plus the form, then reset and refetch on success, or alert and no change on failure |
| ProjectPage.ProjectPage.SaveStepEnabled | src/pages/ProjectPage/ProjectPage.jsx:549-552 | the negation of `disabled`: description and image URL both non-empty (predicate; used by `ClickSaveStep`) |
| ProjectPage.ProjectPage.ClickSaveStep | src/pages/ProjectPage/ProjectPage.jsx:547-552 | a disabled Save does nothing; an enabled one does exactly what `handleCreateStep` does (alert without an active manual, else the request, then reset and refetch or alert); any step sent has a non-empty description and a non-empty image URL |
| ProjectPage.AtMostOneManualInEditMode | src/pages/ProjectPage/ProjectPage.jsx:300 | with distinct manual ids, at most one manual renders in edit mode |

## Left out

- The API client modules (`src/services/*.service.js`) are HTTP plumbing. Requests are values (`ProjectPage.Request`, `StepItem.StepUpdate`), and each call's outcome is a parameter.
- The upload widget (`CloudinaryUpload`) is not part of this model. An upload that completes is the URL passed to an `...ImageUpload` handler.
- The presentational components, routing and the authentication context are not part of this model. `isLoggedIn` is a parameter.
- React's scheduling is not modelled: when effects run, batched updates, `Promise.all` ordering, and the intermediate `isLoading = true` render. A refetch is an emitted flag.
- Every handler that calls the API is modelled as run to completion, with the call's outcome passed in. Interleavings are not captured. For example, a `handleSaveEdit` whose request is still in flight clears `editingManualId` when it settles (ProjectPage.jsx:88-89). If the user has opened another manual's edit by then, that edit closes too.
- StepItem's edit button appears only for admins (`isAdmin`, StepItem.jsx:103). `StepItem.StepItem.HandleEdit` does not check this; who may click is left to the caller.
- `alert`, `confirm` and `console.error` are not modelled. An alert is a boolean output, a confirmation is a boolean input, and logging is dropped.
- ProjectForm.ProjectForm.CatalogEffect: models only the effect body, not its `[isOpen]` dependency tracking.
- TechnologyForm.TechnologyForm.ResetEffect: models only the effect body. The effect also re-runs when the `categories` array changes identity, and array identity has no value model.
- `handleAddNewTechnology` in the project form only logs, so it has no model.
- The picker's add-new button only calls the parent's callback, so it has no model.
- ProjectForm.ProjectForm.HandleChange: covers only the form's real input names. A computed key that names no input would add a new property to `formData`.
- Identifiers are strings. A numeric id and its text form are not told apart; in the source they differ once a select reports a category id as text.
- Browser `required`-attribute validation is not modelled. Neither are the home page's own loading and error states, nor the project page's loading, error and not-found views or the steps section's visibility.
- Entities.TechStackEntry: the API is assumed always to populate `technology`. A stack entry without it would make `ts.technology.id` throw (HomePage.jsx:12, ProjectForm.jsx:50), and that error is not modelled. Only a missing `techStack` is (`ExtractUniqueTechnologies` returns `None`).
- Common.IsJsWhitespace: lists the Unicode space separators explicitly and assumes no other characters count as whitespace for `trim`.
