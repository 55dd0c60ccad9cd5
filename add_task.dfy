/** The task-posting page of src/pages/AddTask.jsx: its redirect effect,
    the record it posts, and `handleSubmit`. */
module AddTask {
  import opened Basics
  import opened JsText
  import opened Http
  import opened Routing
  import opened AuthContext
  import opened Tasks
  import opened TaskForm

  /** The body of `POST /tasks`. */
  datatype NewTask = NewTask(
    title: string,
    category: string,
    description: string,
    deadline: string,
    budget: real,
    userEmail: Option<string>,
    userName: string,
    userId: Option<string>,
    status: string)

  /** `taskData` for the checked payload `p` and the signed-in user `u`. */
  function NewTaskRecord(p: TaskPayload, u: User): NewTask
  {
    NewTask(p.title, p.category, p.description, p.deadline, p.budget,
            u.email, Or(u.displayName, "Anonymous User"), u.uid, "open")
  }

  /** What an accepted form posts: the fields as typed, a positive budget,
      a deadline not before today, the submitter as owner under a
      non-empty name, and the status 'open'. */
  lemma PostedRecordMeaning(f: TaskFields, today: string, u: User)
    requires CheckTask(f, today).Ok?
    ensures var r := NewTaskRecord(CheckTask(f, today).value, u);
      r.title == f.title && r.category == f.category && r.description == f.description &&
      r.deadline == f.deadline && r.budget > 0.0 && !StrLess(r.deadline, today) &&
      r.userId == u.uid && r.userEmail == u.email && r.userName != "" &&
      (Truthy(u.displayName) ==> r.userName == u.displayName.value) &&
      (!Truthy(u.displayName) ==> r.userName == "Anonymous User") && r.status == "open"
  {
    CheckTaskMeaning(f, today);
  }

  /** The page's redirect effect. */
  function AddTaskRedirect(authLoading: bool, user: Option<User>): (r: Option<Navigation>)
    ensures r.Some? <==> !authLoading && user.None?
    ensures r.Some? ==> r.value == LoginRedirect("/dashboard/add-task")
  {
    SignedOutRedirect(authLoading, user.Some?, "/dashboard/add-task")
  }

  /** The posting page: the five inputs and the `isSubmitting` flag, with
      a ghost log of every value handed to `setIsSubmitting`. */
  class AddTaskPage {
    var form: TaskFields
    var isSubmitting: bool
    ghost var submittingLog: seq<bool>

    constructor ()
      ensures form == BlankFields && !isSubmitting && submittingLog == []
    {
      form := BlankFields;
      isSubmitting := false;
      submittingLog := [];
    }

    method SetIsSubmitting(v: bool)
      modifies this`isSubmitting, this`submittingLog
      ensures isSubmitting == v && submittingLog == old(submittingLog) + [v]
    {
      isSubmitting := v;
      submittingLog := submittingLog + [v];
    }

    /** `handleSubmit` for the signed-in `user` on the date `today`;
        `reply` is what the `POST /tasks` request gives. Returns the dialog
        shown, the navigation performed and the record posted, if any. */
    method HandleSubmit(user: Option<User>, today: string, reply: Reply<()>)
      returns (notice: Notice, nav: Option<Navigation>, sent: Option<NewTask>)
      modifies this
      ensures !isSubmitting && submittingLog == old(submittingLog) + [true, false]
      ensures user.None? ==>
        notice == Notice(ErrorIcon, "Authentication Error", "You must be logged in to add a task.") &&
        nav == Some(GoTo("/login")) && sent == None && form == old(form)
      ensures user.Some? && CheckTask(old(form), today).Err? ==>
        notice == Notice(WarningIcon, "Validation Error", FormErrorText(CheckTask(old(form), today).error)) &&
        nav == None && sent == None && form == old(form)
      ensures user.Some? && CheckTask(old(form), today).Ok? ==>
        sent == Some(NewTaskRecord(CheckTask(old(form), today).value, user.value))
      ensures user.Some? && CheckTask(old(form), today).Ok? && reply.Success? ==>
        notice == Notice(SuccessIcon, "Task Added!", "Your task has been successfully listed.") &&
        nav == Some(GoTo("/dashboard/my-tasks")) && form == BlankFields
      ensures user.Some? && CheckTask(old(form), today).Ok? && !reply.Success? ==>
        notice == Notice(ErrorIcon, "Submission Failed",
          CaughtText(ThrownMessage(reply, "Failed to add task"), "Could not add the task. Please try again.")) &&
        nav == None && form == old(form)
    {
      SetIsSubmitting(true);
      if user.None? {
        notice := Notice(ErrorIcon, "Authentication Error", "You must be logged in to add a task.");
        SetIsSubmitting(false);
        return notice, Some(GoTo("/login")), None;
      }
      var checked := CheckTask(form, today);
      if checked.Err? {
        notice := Notice(WarningIcon, "Validation Error", FormErrorText(checked.error));
        SetIsSubmitting(false);
        return notice, None, None;
      }
      var taskData := NewTaskRecord(checked.value, user.value);
      sent := Some(taskData);
      if reply.Success? {
        notice := Notice(SuccessIcon, "Task Added!", "Your task has been successfully listed.");
        nav := Some(GoTo("/dashboard/my-tasks"));
        form := form.(title := "");
        form := form.(category := "");
        form := form.(description := "");
        form := form.(deadline := "");
        form := form.(budget := "");
      } else {
        notice := Notice(ErrorIcon, "Submission Failed",
          CaughtText(ThrownMessage(reply, "Failed to add task"), "Could not add the task. Please try again."));
        nav := None;
      }
      SetIsSubmitting(false);
    }
  }
}
