/** The edit dialog of src/components/UpdateTaskModal.jsx: its prefill
    effect, `handleSubmit` and the callbacks it makes to its parent. */
module UpdateTaskModal {
  import opened Basics
  import opened JsText
  import opened Http
  import opened Tasks
  import opened TaskForm

  /** A call the dialog makes to its parent, in order. */
  datatype Callback = OnTaskUpdated(task: Task) | OnClose

  /** The dialog's five inputs and `isSubmitting`, with a ghost log of
      every value handed to `setIsSubmitting`. */
  class UpdateTaskDialog {
    var form: TaskFields
    var isSubmitting: bool
    ghost var submittingLog: seq<bool>

    constructor ()
      ensures form == BlankFields && !isSubmitting && submittingLog == []
    {
      form := BlankFields;
      isSubmitting := false;
      submittingLog := [];
    }

    method SetIsSubmitting(v: bool)
      modifies this`isSubmitting, this`submittingLog
      ensures isSubmitting == v && submittingLog == old(submittingLog) + [v]
    {
      isSubmitting := v;
      submittingLog := submittingLog + [v];
    }

    /** The effect run when the `task` prop changes. */
    method PrefillEffect(task: Option<Task>)
      modifies this`form
      ensures form == if task.Some? then PrefillFields(task.value) else old(form)
    {
      if task.Some? {
        var t := task.value;
        form := form.(title := t.title);
        form := form.(category := t.category);
        form := form.(description := t.description);
        form := form.(deadline := if Truthy(t.deadline) then DatePart(t.deadline.value) else "");
        form := form.(budget := NumberText(t.budget));
      }
    }

    /** `handleSubmit` for the selected `task` on the date `today`; `reply`
        is what `PUT /tasks/{task._id}` gives. Returns the dialog shown,
        the parent's callbacks made, and the payload sent, if any. */
    method HandleSubmit(task: Task, today: string, reply: Reply<()>)
      returns (notice: Notice, calls: seq<Callback>, sent: Option<TaskPayload>)
      modifies this`isSubmitting, this`submittingLog
      ensures !isSubmitting && submittingLog == old(submittingLog) + [true, false]
      ensures CheckTask(form, today).Err? ==>
        notice == Notice(WarningIcon, "Validation Error", FormErrorText(CheckTask(form, today).error)) &&
        calls == [] && sent == None
      ensures CheckTask(form, today).Ok? ==> sent == Some(CheckTask(form, today).value)
      ensures CheckTask(form, today).Ok? && reply.Success? ==>
        calls == [OnTaskUpdated(ApplyUpdate(task, CheckTask(form, today).value)), OnClose] &&
        notice == Notice(SuccessIcon, "Task Updated!", "Your task has been successfully updated.")
      ensures CheckTask(form, today).Ok? && !reply.Success? ==> calls == []
      ensures CheckTask(form, today).Ok? && reply.HttpError? ==>
        notice == Notice(ErrorIcon, "Update Failed", "Failed to update task")
      ensures CheckTask(form, today).Ok? && reply.NetworkError? ==>
        notice == Notice(ErrorIcon, "Update Failed", CaughtText(reply.reason, "Could not update the task."))
    {
      SetIsSubmitting(true);
      var checked := CheckTask(form, today);
      if checked.Err? {
        notice := Notice(WarningIcon, "Validation Error", FormErrorText(checked.error));
        SetIsSubmitting(false);
        return notice, [], None;
      }
      sent := Some(checked.value);
      // A response that is not ok throws a fixed message; the server's
      // own message is not read.
      var thrown := if reply.HttpError? then Some("Failed to update task")
                    else if reply.NetworkError? then Some(reply.reason) else None;
      if thrown.None? {
        calls := [OnTaskUpdated(ApplyUpdate(task, checked.value)), OnClose];
        notice := Notice(SuccessIcon, "Task Updated!", "Your task has been successfully updated.");
      } else {
        calls := [];
        notice := Notice(ErrorIcon, "Update Failed", CaughtText(thrown.value, "Could not update the task."));
      }
      SetIsSubmitting(false);
    }

    /** The dialog's markup: nothing while closed, the inputs while open. */
    function Rendered(isOpen: bool): (r: Option<TaskFields>)
      reads this
      ensures r.None? <==> !isOpen
      ensures r.Some? ==> r.value == form
    {
      if !isOpen then None else Some(form)
    }
  }

  /** The task the parent receives from an accepted edit of a prefilled
      dialog: the edited fields come from the form, and the identity and
      owner of the selected task are kept. */
  lemma UpdatedTaskKeepsIdentity(task: Task, f: TaskFields, today: string)
    requires CheckTask(f, today).Ok?
    ensures ApplyUpdate(task, CheckTask(f, today).value).id == task.id
    ensures ApplyUpdate(task, CheckTask(f, today).value).userId == task.userId
    ensures ApplyUpdate(task, CheckTask(f, today).value).title == f.title
    ensures ApplyUpdate(task, CheckTask(f, today).value).deadline == Some(f.deadline)
    ensures ApplyUpdate(task, CheckTask(f, today).value).budget > 0.0
  {
    CheckTaskMeaning(f, today);
    ApplyUpdateFields(task, CheckTask(f, today).value);
  }
}
