/** One step of the active manual on the project page: a read view with an
    image and, for an admin, an inline editor whose draft (`editData`) is
    loaded from the step on entry and discarded on cancel. */
module StepItem {
  import opened Common
  import opened Entities

  /** The inline editor's draft. */
  datatype EditData = EditData(description: string, imageUrl: Option<string>)

  /** The draft as loaded from a step: its current description and image. */
  function DraftOf(step: Step): EditData
  {
    EditData(step.description, step.imageUrl)
  }

  /** The request `handleSave` issues: update the step with the draft. */
  datatype StepUpdate = StepUpdate(stepId: Id, changes: EditData)

  /** `!isLastStep`, where the page passes `index === steps.length - 1`:
      the line to the next step is drawn exactly when a next step exists. */
  function ShowsConnector(steps: seq<Step>, index: nat): (shown: bool)
    requires index < |steps|
    ensures shown <==> index + 1 < |steps|
  {
    var isLastStep := index == |steps| - 1;
    !isLastStep
  }

  class StepItem {
    var isEditing: bool
    var editData: EditData

    /** Mounted in read mode, the draft holding the step's values. */
    constructor (step: Step)
      ensures !isEditing && editData == DraftOf(step)
    {
      isEditing := false;
      editData := DraftOf(step);
    }

    /** `handleEdit`: enters edit mode with the draft reloaded from the
        step's current values. */
    method HandleEdit(step: Step)
      modifies this
      ensures isEditing && editData == DraftOf(step)
    {
      isEditing := true;
      editData := DraftOf(step);
    }

    /** `handleCancel`: leaves edit mode and discards the edits, the draft
        restored to the step's values. */
    method HandleCancel(step: Step)
      modifies this
      ensures !isEditing && editData == DraftOf(step)
    {
      isEditing := false;
      editData := DraftOf(step);
    }

    /** `handleSave`: sends the draft as the step's update. On success it
        leaves edit mode and notifies the page (which refetches); on failure
        it alerts and stays as it was. The draft is never touched. */
    method HandleSave(step: Step, outcome: CallOutcome) returns (request: StepUpdate, alert: bool, notified: bool)
      modifies this
      ensures request == StepUpdate(step.id, old(editData))
      ensures editData == old(editData)
      ensures outcome.Succeeded? ==> !isEditing && notified && !alert
      ensures outcome.Failed? ==> isEditing == old(isEditing) && alert && !notified
    {
      request := StepUpdate(step.id, editData);
      if outcome.Succeeded? {
        isEditing := false;
        notified, alert := true, false;
      } else {
        notified, alert := false, true;
      }
    }

    /** `handleDescriptionChange`: only the draft's description changes. */
    method HandleDescriptionChange(value: string)
      modifies this`editData
      ensures editData == old(editData).(description := value)
    {
      editData := editData.(description := value);
    }

    /** `handleImageUpload`: only the draft's image changes. */
    method HandleImageUpload(imageUrl: string)
      modifies this`editData
      ensures editData == old(editData).(imageUrl := Some(imageUrl))
    {
      editData := editData.(imageUrl := Some(imageUrl));
    }

    /** The step's image is shown only in read mode, and only when its URL
        is present and has a non-whitespace character. */
    function ShowsImage(step: Step): (shown: bool)
      reads this
      ensures shown <==> !isEditing && step.imageUrl.Some? && HasVisibleText(step.imageUrl.value)
    {
      !isEditing && IsPresentAndNonBlank(step.imageUrl)
    }
  }
}
