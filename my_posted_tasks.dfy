/** The page of src/pages/MyPostedTasks.jsx listing the signed-in user's
    tasks: the load effect, the edit dialog's open and close, and the two
    list updaters for an edit and a delete. */
module MyPostedTasks {
  import opened Basics
  import opened Routing
  import opened AuthContext
  import opened Tasks
  import opened Sorting

  /** `prevTasks.map(task => task._id === updated._id ? updated : task)` */
  function ReplaceById(tasks: seq<Task>, updated: Task): seq<Task>
  {
    seq(|tasks|, i requires 0 <= i < |tasks| => if tasks[i].id == updated.id then updated else tasks[i])
  }

  /** The ids of a list, in order. */
  function Ids(tasks: seq<Task>): seq<string>
  {
    seq(|tasks|, i requires 0 <= i < |tasks| => tasks[i].id)
  }

  /** An edit keeps the length, the order and the ids of the list, puts
      the edited task wherever its id occurs, and keeps every other entry;
      repeating it changes nothing more. */
  lemma ReplaceByIdMeaning(tasks: seq<Task>, updated: Task)
    ensures |ReplaceById(tasks, updated)| == |tasks|
    ensures Ids(ReplaceById(tasks, updated)) == Ids(tasks)
    ensures forall i :: 0 <= i < |tasks| && tasks[i].id == updated.id ==> ReplaceById(tasks, updated)[i] == updated
    ensures forall i :: 0 <= i < |tasks| && tasks[i].id != updated.id ==> ReplaceById(tasks, updated)[i] == tasks[i]
    ensures ReplaceById(ReplaceById(tasks, updated), updated) == ReplaceById(tasks, updated)
  {
  }

  /** An edit of a task that is not listed leaves the list as it was. */
  lemma ReplaceAbsentId(tasks: seq<Task>, updated: Task)
    requires updated.id !in Ids(tasks)
    ensures ReplaceById(tasks, updated) == tasks
  {
    forall i | 0 <= i < |tasks|
      ensures ReplaceById(tasks, updated)[i] == tasks[i]
    {
      assert Ids(tasks)[i] == tasks[i].id;
    }
  }

  /** `prevTasks.filter(task => task._id !== taskId)` */
  function DeleteById(tasks: seq<Task>, taskId: string): seq<Task>
  {
    if tasks == [] then []
    else (if tasks[0].id != taskId then [tasks[0]] else []) + DeleteById(tasks[1..], taskId)
  }

  /** Deleting from a joined list deletes from each part: the entries
      kept stay in their order. */
  lemma {:induction false} DeleteByIdConcat(a: seq<Task>, b: seq<Task>, taskId: string)
    ensures DeleteById(a + b, taskId) == DeleteById(a, taskId) + DeleteById(b, taskId)
  {
    if a != [] {
      assert (a + b)[1..] == a[1..] + b;
      DeleteByIdConcat(a[1..], b, taskId);
    } else {
      assert a + b == b;
    }
  }

  /** A delete removes every entry with the id and keeps every other
      entry, each as often as before. */
  lemma {:induction false} DeleteByIdMeaning(tasks: seq<Task>, taskId: string)
    ensures forall t: Task :: t in DeleteById(tasks, taskId) <==> t in tasks && t.id != taskId
    ensures forall t: Task :: t.id != taskId ==> multiset(DeleteById(tasks, taskId))[t] == multiset(tasks)[t]
    ensures |DeleteById(tasks, taskId)| <= |tasks|
  {
    if tasks != [] {
      DeleteByIdMeaning(tasks[1..], taskId);
      assert tasks == [tasks[0]] + tasks[1..];
      assert multiset(tasks) == multiset{tasks[0]} + multiset(tasks[1..]);
    }
  }

  /** Deleting an id that no entry has changes nothing, and deleting the
      same id twice is deleting it once. */
  lemma {:induction false} DeleteByIdStable(tasks: seq<Task>, taskId: string)
    ensures taskId !in Ids(tasks) ==> DeleteById(tasks, taskId) == tasks
    ensures DeleteById(DeleteById(tasks, taskId), taskId) == DeleteById(tasks, taskId)
  {
    if tasks != [] {
      DeleteByIdStable(tasks[1..], taskId);
      var rest := DeleteById(tasks[1..], taskId);
      if tasks[0].id != taskId {
        assert DeleteById(tasks, taskId) == [tasks[0]] + rest;
        assert DeleteById([tasks[0]] + rest, taskId) == [tasks[0]] + DeleteById(rest, taskId) by {
          assert ([tasks[0]] + rest)[1..] == rest;
        }
      } else {
        assert DeleteById(tasks, taskId) == [] + rest;
        assert [] + rest == rest;
      }
      if taskId !in Ids(tasks) {
        assert Ids(tasks)[0] == tasks[0].id;
        assert Ids(tasks[1..]) == Ids(tasks)[1..];
        assert tasks == [tasks[0]] + tasks[1..];
      }
    }
  }

  /** The page's state, with a ghost log of every value handed to
      `setLoading`. */
  class MyTasksPage {
    var myTasks: seq<Task>
    var loading: bool
    var error: Option<string>
    var isUpdateModalOpen: bool
    var selectedTask: Option<Task>
    ghost var loadingLog: seq<bool>

    constructor ()
      ensures myTasks == [] && loading && error == None && !isUpdateModalOpen && selectedTask == None
      ensures loadingLog == []
    {
      myTasks := [];
      loading := true;
      error := None;
      isUpdateModalOpen := false;
      selectedTask := None;
      loadingLog := [];
    }

    method SetLoading(v: bool)
      modifies this`loading, this`loadingLog
      ensures loading == v && loadingLog == old(loadingLog) + [v]
    {
      loading := v;
      loadingLog := loadingLog + [v];
    }

    /** The load effect; `reply` is what `GET /tasks?userId={uid}` gives.
        Returns the navigation performed, if any. */
    method LoadEffect(user: Option<User>, authLoading: bool, reply: Reply<seq<Task>>)
      returns (nav: Option<Navigation>)
      modifies this`myTasks, this`loading, this`loadingLog, this`error
      ensures nav == SignedOutRedirect(authLoading, user.Some?, "/dashboard/my-tasks")
      ensures authLoading || user.None? ==>
        myTasks == old(myTasks) && loading == old(loading) && loadingLog == old(loadingLog) && error == old(error)
      ensures !authLoading && user.Some? ==> !loading && loadingLog == old(loadingLog) + [true, false]
      ensures !authLoading && user.Some? && reply.Success? ==>
        error == None && SortedBy(myTasks, NewestFirst) && multiset(myTasks) == multiset(reply.data)
      ensures !authLoading && user.Some? && reply.HttpError? ==>
        error == Some("Failed to fetch your tasks.") && myTasks == old(myTasks)
      ensures !authLoading && user.Some? && reply.NetworkError? ==>
        error == Some(reply.reason) && myTasks == old(myTasks)
    {
      nav := SignedOutRedirect(authLoading, user.Some?, "/dashboard/my-tasks");
      if authLoading || user.None? {
        return;
      }
      SetLoading(true);
      error := None;
      match reply {
        case Success(data) =>
          var sorted := SortedCopy(data, NewestFirst);
          myTasks := sorted;
        case HttpError(_, _) =>
          error := Some("Failed to fetch your tasks.");
        case NetworkError(reason) =>
          error := Some(reason);
      }
      SetLoading(false);
    }

    /** `handleOpenUpdateModal(task)` */
    method OpenUpdateModal(task: Task)
      modifies this`selectedTask, this`isUpdateModalOpen
      ensures selectedTask == Some(task) && isUpdateModalOpen
    {
      selectedTask := Some(task);
      isUpdateModalOpen := true;
    }

    /** `handleCloseUpdateModal()` */
    method CloseUpdateModal()
      modifies this`selectedTask, this`isUpdateModalOpen
      ensures selectedTask == None && !isUpdateModalOpen
    {
      isUpdateModalOpen := false;
      selectedTask := None;
    }

    /** `handleTaskUpdated(updatedTask)`, the dialog's `onTaskUpdated`. */
    method HandleTaskUpdated(updatedTask: Task)
      modifies this`myTasks, this`selectedTask, this`isUpdateModalOpen
      ensures myTasks == ReplaceById(old(myTasks), updatedTask)
      ensures selectedTask == None && !isUpdateModalOpen
    {
      myTasks := ReplaceById(myTasks, updatedTask);
      CloseUpdateModal();
    }

    /** `handleDelete(taskId)`: `confirmed` is the answer to the
        confirmation dialog and `reply` what `DELETE /tasks/{taskId}`
        gives. Returns the dialog shown afterwards, if any. */
    method HandleDelete(taskId: string, confirmed: bool, reply: Reply<()>)
      returns (notice: Option<Notice>)
      modifies this`myTasks
      ensures !confirmed ==> myTasks == old(myTasks) && notice == None
      ensures confirmed && reply.Success? ==>
        myTasks == DeleteById(old(myTasks), taskId) &&
        notice == Some(Notice(SuccessIcon, "Deleted!", "Your task has been deleted."))
      ensures confirmed && reply.HttpError? ==>
        myTasks == old(myTasks) && notice == Some(Notice(ErrorIcon, "Error!", "Failed to delete the task."))
      ensures confirmed && reply.NetworkError? ==>
        myTasks == old(myTasks) && notice == Some(Notice(ErrorIcon, "Error!", reply.reason))
    {
      if !confirmed {
        return None;
      }
      match reply {
        case Success(_) =>
          myTasks := DeleteById(myTasks, taskId);
          notice := Some(Notice(SuccessIcon, "Deleted!", "Your task has been deleted."));
        case HttpError(_, _) =>
          notice := Some(Notice(ErrorIcon, "Error!", "Failed to delete the task."));
        case NetworkError(reason) =>
          notice := Some(Notice(ErrorIcon, "Error!", reason));
      }
    }

    /** What the page shows while the session is `authLoading` or not. */
    function View(authLoading: bool): (s: Screen)
      reads this
      ensures s != Unavailable
      ensures s == Loading <==> loading || authLoading
      ensures s.Failed? <==> !(loading || authLoading) && Truthy(error)
      ensures s.Failed? ==> s.message == error.value
    {
      Gate(loading || authLoading, error, true)
    }
  }
}
