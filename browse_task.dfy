/** The public task list of src/pages/BrowseTask.jsx: the load effect,
    the card excerpt and poster name, and the render gate. */
module BrowseTask {
  import opened Basics
  import opened JsText
  import opened Http
  import opened Tasks
  import opened Sorting

  /** The length at which a card cuts its description. */
  const ExcerptLength := 120

  /** A card shows the description itself when it has at most 120
      characters, and otherwise 123 characters: the first 120 and
      '...'. */
  lemma ExcerptShape(d: string)
    ensures |d| <= ExcerptLength ==> Truncate(d, ExcerptLength) == d
    ensures |d| > ExcerptLength ==>
      |Truncate(d, ExcerptLength)| == 123 &&
      Truncate(d, ExcerptLength)[..ExcerptLength] == d[..ExcerptLength] &&
      Truncate(d, ExcerptLength)[ExcerptLength..] == "..."
  {
  }

  /** `task.userName || 'Anonymous'` */
  function PosterName(t: Task): (n: string)
    ensures Truthy(t.userName) ==> n == t.userName.value
    ensures !Truthy(t.userName) ==> n == "Anonymous"
    ensures n != ""
  {
    Or(t.userName, "Anonymous")
  }

  const LoadFallback := "Could not retrieve tasks from the server. Please try again later."

  /** The page's state, with a ghost log of every value handed to
      `setLoading`. */
  class BrowseTaskPage {
    var tasks: seq<Task>
    var loading: bool
    var error: Option<string>
    ghost var loadingLog: seq<bool>

    constructor ()
      ensures tasks == [] && loading && error == None && loadingLog == []
    {
      tasks := [];
      loading := true;
      error := None;
      loadingLog := [];
    }

    method SetLoading(v: bool)
      modifies this`loading, this`loadingLog
      ensures loading == v && loadingLog == old(loadingLog) + [v]
    {
      loading := v;
      loadingLog := loadingLog + [v];
    }

    /** The mount effect; `reply` is what `GET /tasks` gives. Returns the
        dialog shown, if any. */
    method LoadEffect(reply: Reply<seq<Task>>) returns (notice: Option<Notice>)
      modifies this`tasks, this`loading, this`loadingLog, this`error
      ensures !loading && loadingLog == old(loadingLog) + [true, false]
      ensures reply.Success? ==>
        error == None && notice == None &&
        SortedBy(tasks, NewestFirst) && multiset(tasks) == multiset(reply.data) && |tasks| == |reply.data|
      ensures !reply.Success? ==>
        tasks == old(tasks) && error == Some(FetchErrorMessage(reply)) &&
        notice == Some(Notice(ErrorIcon, "Failed to Load Tasks", CaughtText(FetchErrorMessage(reply), LoadFallback)))
    {
      SetLoading(true);
      error := None;
      notice := None;
      if reply.Success? {
        var sorted := SortedCopy(reply.data, NewestFirst);
        tasks := sorted;
      } else {
        var message := FetchErrorMessage(reply);
        error := Some(message);
        notice := Some(Notice(ErrorIcon, "Failed to Load Tasks", CaughtText(message, LoadFallback)));
      }
      SetLoading(false);
    }

    /** The render gate `if (loading) ...; if (error) ...;`; the list, or
        its empty note, is shown otherwise. */
    function View(): (s: Screen)
      reads this
      ensures s != Unavailable
      ensures s == Loading <==> loading
      ensures s.Failed? <==> !loading && Truthy(error)
    {
      Gate(loading, error, true)
    }
  }

  /** After a load the newest task comes first: no listed task was created
      later than the first card's. */
  lemma NewestTaskListedFirst(tasks: seq<Task>, t: Task)
    requires SortedBy(tasks, NewestFirst) && t in multiset(tasks)
    ensures tasks[0].createdAt >= t.createdAt
  {
    SortedHeadLeast(tasks, NewestFirst, t);
  }
}
