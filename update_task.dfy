/** The task-editing page of src/pages/UpdateTask.jsx: the load effect
    with its ownership check, `handleSubmit`, and the render gate. */
module UpdateTask {
  import opened Basics
  import opened JsText
  import opened Http
  import opened Routing
  import opened AuthContext
  import opened Tasks
  import opened TaskForm

  const AccessDenied := Notice(ErrorIcon, "Access Denied", "You can only update tasks that you have posted.")

  /** `data.userId !== user.uid`: a task is editable only by the user
      whose id it stores. */
  predicate OwnedBy(t: Task, u: User)
  {
    t.userId == u.uid
  }

  /** The editing page's state, with ghost logs of every value handed to
      `setIsSubmitting` and `setIsLoadingData`. */
  class UpdateTaskPage {
    var form: TaskFields
    var originalTaskData: Option<Task>
    var isSubmitting: bool
    var isLoadingData: bool
    var error: Option<string>
    ghost var submittingLog: seq<bool>
    ghost var loadingLog: seq<bool>

    constructor ()
      ensures form == BlankFields && originalTaskData == None && error == None
      ensures !isSubmitting && isLoadingData && submittingLog == [] && loadingLog == []
    {
      form := BlankFields;
      originalTaskData := None;
      isSubmitting := false;
      isLoadingData := true;
      error := None;
      submittingLog := [];
      loadingLog := [];
    }

    method SetIsLoadingData(v: bool)
      modifies this`isLoadingData, this`loadingLog
      ensures isLoadingData == v && loadingLog == old(loadingLog) + [v]
    {
      isLoadingData := v;
      loadingLog := loadingLog + [v];
    }

    method SetIsSubmitting(v: bool)
      modifies this`isSubmitting, this`submittingLog
      ensures isSubmitting == v && submittingLog == old(submittingLog) + [v]
    {
      isSubmitting := v;
      submittingLog := submittingLog + [v];
    }

    /** The load effect for the route parameter `taskId`; `reply` is what
        `GET /tasks/{taskId}` gives. Returns the navigation performed and
        the dialog shown, if any. */
    method LoadEffect(taskId: Option<string>, user: Option<User>, authLoading: bool, reply: Reply<Task>)
      returns (nav: Option<Navigation>, notice: Option<Notice>)
      modifies this
      ensures isSubmitting == old(isSubmitting) && submittingLog == old(submittingLog)
      ensures authLoading ==> nav == None
      ensures authLoading || user.None? ==>
        form == old(form) && originalTaskData == old(originalTaskData) && error == old(error) &&
        isLoadingData == old(isLoadingData) && loadingLog == old(loadingLog) && notice == None
      ensures nav.Some? && nav.value.to == "/login" <==> !authLoading && user.None?
      ensures !authLoading && user.None? ==> nav == Some(LoginRedirect("/update-task/" + PathParam(taskId)))
      ensures !authLoading && user.Some? && !Truthy(taskId) ==>
        error == Some("Task ID is missing.") && !isLoadingData && loadingLog == old(loadingLog) + [false] &&
        form == old(form) && originalTaskData == old(originalTaskData) && nav == None && notice == None
      ensures !authLoading && user.Some? && Truthy(taskId) ==>
        !isLoadingData && loadingLog == old(loadingLog) + [true, false]
      ensures !authLoading && user.Some? && Truthy(taskId) && reply.Success? && !OwnedBy(reply.data, user.value) ==>
        nav == Some(GoTo("/my-tasks")) && notice == Some(AccessDenied) && error == None &&
        form == old(form) && originalTaskData == old(originalTaskData)
      ensures !authLoading && user.Some? && Truthy(taskId) && reply.Success? && OwnedBy(reply.data, user.value) ==>
        originalTaskData == Some(reply.data) && form == PrefillFields(reply.data) && error == None &&
        nav == None && notice == None
      ensures !authLoading && user.Some? && Truthy(taskId) && !reply.Success? ==>
        error == Some(FetchErrorMessage(reply)) &&
        notice == Some(Notice(ErrorIcon, "Failed to Load Task Data", FetchErrorMessage(reply))) &&
        form == old(form) && originalTaskData == old(originalTaskData) && nav == None
    {
      nav, notice := None, None;
      if authLoading {
        return;
      }
      if user.None? {
        nav := Some(LoginRedirect("/update-task/" + PathParam(taskId)));
        return;
      }
      if !Truthy(taskId) {
        error := Some("Task ID is missing.");
        SetIsLoadingData(false);
        return;
      }
      SetIsLoadingData(true);
      error := None;
      match reply {
        case Success(data) =>
          if !OwnedBy(data, user.value) {
            notice := Some(AccessDenied);
            nav := Some(GoTo("/my-tasks"));
          } else {
            originalTaskData := Some(data);
            form := form.(title := data.title);
            form := form.(category := data.category);
            form := form.(description := data.description);
            form := form.(deadline := if Truthy(data.deadline) then DatePart(data.deadline.value) else "");
            form := form.(budget := NumberText(data.budget));
          }
        case HttpError(_, _) =>
          error := Some(FetchErrorMessage(reply));
          notice := Some(Notice(ErrorIcon, "Failed to Load Task Data", FetchErrorMessage(reply)));
        case NetworkError(_) =>
          error := Some(FetchErrorMessage(reply));
          notice := Some(Notice(ErrorIcon, "Failed to Load Task Data", FetchErrorMessage(reply)));
      }
      SetIsLoadingData(false);
    }

    /** `handleSubmit` on the date `today`; `reply` is what
        `PUT /tasks/{taskId}` gives. Returns the dialog shown, the
        navigation performed and the payload sent, if any. */
    method HandleSubmit(today: string, reply: Reply<()>)
      returns (notice: Notice, nav: Option<Navigation>, sent: Option<TaskPayload>)
      modifies this`isSubmitting, this`submittingLog
      ensures !isSubmitting && submittingLog == old(submittingLog) + [true, false]
      ensures CheckTask(form, today).Err? ==>
        notice == Notice(WarningIcon, "Validation Error", FormErrorText(CheckTask(form, today).error)) &&
        nav == None && sent == None
      ensures CheckTask(form, today).Ok? ==> sent == Some(CheckTask(form, today).value)
      ensures CheckTask(form, today).Ok? && reply.Success? ==>
        notice == Notice(SuccessIcon, "Task Updated!", "Your task has been successfully updated.") &&
        nav == Some(GoTo("/my-tasks"))
      ensures CheckTask(form, today).Ok? && !reply.Success? ==>
        notice == Notice(ErrorIcon, "Update Failed",
          CaughtText(ThrownMessage(reply, "Failed to update task"), "Could not update the task.")) &&
        nav == None
    {
      SetIsSubmitting(true);
      var checked := CheckTask(form, today);
      if checked.Err? {
        notice := Notice(WarningIcon, "Validation Error", FormErrorText(checked.error));
        SetIsSubmitting(false);
        return notice, None, None;
      }
      sent := Some(checked.value);
      if reply.Success? {
        notice := Notice(SuccessIcon, "Task Updated!", "Your task has been successfully updated.");
        nav := Some(GoTo("/my-tasks"));
      } else {
        notice := Notice(ErrorIcon, "Update Failed",
          CaughtText(ThrownMessage(reply, "Failed to update task"), "Could not update the task."));
        nav := None;
      }
      SetIsSubmitting(false);
    }

    /** What the page shows while the session is `authLoading` or not. */
    function View(authLoading: bool): (s: Screen)
      reads this
      ensures s == Loading <==> isLoadingData || authLoading
      ensures s.Failed? <==> !(isLoadingData || authLoading) && Truthy(error)
      ensures s == Unavailable <==> !(isLoadingData || authLoading) && !Truthy(error) && originalTaskData.None?
      ensures s == Ready <==> !(isLoadingData || authLoading) && !Truthy(error) && originalTaskData.Some?
    {
      Gate(isLoadingData || authLoading, error, originalTaskData.Some?)
    }
  }

  /** The payload of an edit never names the owner: the stored task keeps
      its owner through any edit, so the ownership check still passes
      afterwards. */
  lemma EditKeepsOwnership(t: Task, u: User, p: TaskPayload)
    requires OwnedBy(t, u)
    ensures OwnedBy(ApplyUpdate(t, p), u)
    ensures ApplyUpdate(t, p).userEmail == t.userEmail && ApplyUpdate(t, p).userName == t.userName
  {
    ApplyUpdateFields(t, p);
  }
}
