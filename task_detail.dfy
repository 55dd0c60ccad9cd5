/** The task page of src/pages/TaskDetail.jsx: the load effect, the bid
    handler, the bid button, the banner noun and the render gate. The
    bid cache it reads and changes is the `BidProvider`. */
module TaskDetail {
  import opened Basics
  import opened Http
  import opened Routing
  import opened AuthContext
  import opened BidContext
  import opened Tasks

  /** What the actions row offers besides the way back. */
  datatype BidButton =
    | NoButton              // signed out, or the visitor posted the task
    | BidPlaced             // the disabled 'Bid Placed' button
    | PlaceBid(placing: bool)  // 'Place Bid', or 'Placing Bid...' while a bid is sent

  /** `user && task.userId === user.uid` */
  predicate IsOwner(user: Option<User>, task: Task)
  {
    user.Some? && task.userId == user.value.uid
  }

  /** The button for the visitor `user`, given `hasBid(taskId)` and
      `isPlacingBid`. */
  function BidButtonFor(user: Option<User>, task: Task, hasBid: bool, placing: bool): (b: BidButton)
    ensures b == NoButton <==> user.None? || IsOwner(user, task)
    ensures b == BidPlaced <==> user.Some? && !IsOwner(user, task) && hasBid
    ensures b.PlaceBid? <==> user.Some? && !IsOwner(user, task) && !hasBid
    ensures b.PlaceBid? ==> b.placing == placing
  {
    if user.Some? && !IsOwner(user, task) then
      if hasBid then BidPlaced else PlaceBid(placing)
    else NoButton
  }

  /** The noun after the number in the banner. */
  function BannerNoun(count: int): (w: string)
    ensures w == "opportunity" <==> count == 1
    ensures w == "opportunities" <==> count != 1
  {
    if count == 1 then "opportunity" else "opportunities"
  }

  /** The banner above the card, shown to a signed-in visitor only: the
      count and the noun that goes with it. */
  function Banner(user: Option<User>, count: int): (b: Option<(int, string)>)
    ensures b.Some? <==> user.Some?
    ensures b.Some? ==> b.value.0 == count && b.value.1 == BannerNoun(count)
  {
    if user.Some? then Some((count, BannerNoun(count))) else None
  }

  const LoginRequired := Notice(WarningIcon, "Login Required", "You need to be logged in to place a bid.")
  const BidPlacedNotice := Notice(SuccessIcon, "Bid Placed!", "Your bid has been recorded for this opportunity.")
  const BidFallback := "Could not place your bid. You might have already bid on this task."

  /** The page's state, with ghost logs of every value handed to
      `setLoadingTask` and `setIsPlacingBid`. */
  class TaskDetailPage {
    var task: Option<Task>
    var loadingTask: bool
    var error: Option<string>
    var isPlacingBid: bool
    ghost var loadingLog: seq<bool>
    ghost var placingLog: seq<bool>

    constructor ()
      ensures task == None && loadingTask && error == None && !isPlacingBid
      ensures loadingLog == [] && placingLog == []
    {
      task := None;
      loadingTask := true;
      error := None;
      isPlacingBid := false;
      loadingLog := [];
      placingLog := [];
    }

    method SetLoadingTask(v: bool)
      modifies this`loadingTask, this`loadingLog
      ensures loadingTask == v && loadingLog == old(loadingLog) + [v]
    {
      loadingTask := v;
      loadingLog := loadingLog + [v];
    }

    method SetIsPlacingBid(v: bool)
      modifies this`isPlacingBid, this`placingLog
      ensures isPlacingBid == v && placingLog == old(placingLog) + [v]
    {
      isPlacingBid := v;
      placingLog := placingLog + [v];
    }

    /** The load effect for the route parameter `taskId`; `reply` is what
        `GET /tasks/{taskId}` gives. Returns the navigation performed, the
        dialog shown and whether the task was requested. */
    method LoadEffect(taskId: Option<string>, user: Option<User>, authLoading: bool, reply: Reply<Task>)
      returns (nav: Option<Navigation>, notice: Option<Notice>, fetched: bool)
      modifies this`task, this`loadingTask, this`error, this`loadingLog
      ensures fetched <==> !authLoading && user.Some? && Truthy(taskId)
      ensures nav == SignedOutRedirect(authLoading, user.Some?, "/task/" + PathParam(taskId))
      ensures authLoading || user.None? ==>
        task == old(task) && loadingTask == old(loadingTask) && error == old(error) &&
        loadingLog == old(loadingLog) && notice == None
      ensures !authLoading && user.Some? && !Truthy(taskId) ==>
        error == Some("Task ID is missing.") && !loadingTask && loadingLog == old(loadingLog) + [false] &&
        task == old(task) && notice == None
      ensures fetched ==> !loadingTask && loadingLog == old(loadingLog) + [true, false]
      ensures fetched && reply.Success? ==> task == Some(reply.data) && error == None && notice == None
      ensures fetched && !reply.Success? ==>
        task == old(task) && error == Some(FetchErrorMessage(reply)) &&
        notice == Some(Notice(ErrorIcon, "Failed to Load Task", FetchErrorMessage(reply)))
    {
      nav, notice, fetched := None, None, false;
      if authLoading {
        return;
      }
      if user.None? {
        nav := Some(LoginRedirect("/task/" + PathParam(taskId)));
        return;
      }
      if Truthy(taskId) {
        fetched := true;
        SetLoadingTask(true);
        error := None;
        if reply.Success? {
          task := Some(reply.data);
        } else {
          error := Some(FetchErrorMessage(reply));
          notice := Some(Notice(ErrorIcon, "Failed to Load Task", FetchErrorMessage(reply)));
        }
        SetLoadingTask(false);
      } else {
        error := Some("Task ID is missing.");
        SetLoadingTask(false);
      }
    }

    /** The effect that reloads the bid cache whenever a signed-in user is
        present; `reply` is what the summary request gives. Returns
        whether `refreshBids` was called. */
    method RefreshEffect(bids: BidProvider, user: Option<User>, reply: Reply<Summary>)
      returns (refreshed: bool)
      modifies bids
      ensures refreshed <==> user.Some? && Truthy(user.value.uid)
      ensures !refreshed ==>
        bids.userBidsData == old(bids.userBidsData) && bids.loadingBids == old(bids.loadingBids)
      ensures refreshed ==>
        !bids.loadingBids && bids.userBidsData == (if reply.Success? then FromSummary(reply.data) else Empty)
    {
      refreshed := user.Some? && Truthy(user.value.uid);
      if refreshed {
        bids.RefreshBids(user, reply);
      }
    }

    /** `handlePlaceBid` for the route's `taskId`; `reply` and `refresh` are
        what `addBid` receives from its two requests. Returns the dialog
        shown, the navigation performed and the bid request sent, if any. */
    method HandlePlaceBid(bids: BidProvider, user: Option<User>, taskId: string,
                          reply: Reply<()>, refresh: Reply<Summary>)
      returns (notice: Notice, nav: Option<Navigation>, sent: Option<BidRequest>)
      modifies this`isPlacingBid, this`placingLog, bids
      ensures user.None? ==>
        notice == LoginRequired && nav == Some(LoginRedirect("/task/" + taskId)) && sent == None &&
        bids.userBidsData == old(bids.userBidsData) && bids.loadingBids == old(bids.loadingBids) &&
        isPlacingBid == old(isPlacingBid) && placingLog == old(placingLog)
      ensures user.Some? ==>
        nav == None && !isPlacingBid && placingLog == old(placingLog) + [true, false] &&
        sent == Some(BidRequest(taskId, user.value.uid, user.value.email,
                                Or(user.value.displayName, "Anonymous Bidder")))
      ensures user.Some? && reply.Success? ==>
        notice == BidPlacedNotice && bids.HasBid(taskId) &&
        bids.userBidsData == WithBid(old(bids.userBidsData), taskId) &&
        bids.loadingBids == old(bids.loadingBids)
      ensures user.Some? && !reply.Success? ==>
        notice == Notice(ErrorIcon, "Bid Failed", CaughtText(BidErrorMessage(reply), BidFallback))
      ensures user.Some? && !reply.Success? &&
              !(MentionsDuplicate(BidErrorMessage(reply)) && Truthy(user.value.uid)) ==>
        bids.loadingBids == old(bids.loadingBids) &&
        bids.userBidsData == if reply.HttpError? && reply.status == 409
                             then WithBid(old(bids.userBidsData), taskId) else old(bids.userBidsData)
      ensures user.Some? && reply.HttpError? && reply.status == 409 &&
              !(MentionsDuplicate(BidErrorMessage(reply)) && Truthy(user.value.uid)) ==>
        bids.HasBid(taskId)
      ensures user.Some? && !reply.Success? &&
              MentionsDuplicate(BidErrorMessage(reply)) && Truthy(user.value.uid) ==>
        !bids.loadingBids &&
        bids.userBidsData == if refresh.Success? then FromSummary(refresh.data) else Empty
    {
      if user.None? {
        return LoginRequired, Some(LoginRedirect("/task/" + taskId)), None;
      }
      SetIsPlacingBid(true);
      var r;
      r, sent := bids.AddBid(user, taskId, reply, refresh);
      WithBidEffect(old(bids.userBidsData), taskId);
      if r.Ok? {
        notice := BidPlacedNotice;
      } else {
        notice := Notice(ErrorIcon, "Bid Failed", CaughtText(r.error, BidFallback));
      }
      nav := None;
      SetIsPlacingBid(false);
    }

    /** What the page shows while the session or the bid cache is loading
        or not. */
    function View(authLoading: bool, loadingBids: bool): (s: Screen)
      reads this
      ensures s == Loading <==> loadingTask || authLoading || loadingBids
      ensures s == Ready <==> !(loadingTask || authLoading || loadingBids) && !Truthy(error) && task.Some?
    {
      Gate(loadingTask || authLoading || loadingBids, error, task.Some?)
    }
  }

  /** Once a bid on the task has been recorded, a visitor who did not post
      it sees 'Bid Placed' and can no longer bid, whatever else the cache
      holds. */
  lemma RecordedBidDisablesButton(d: BidsData, user: Option<User>, task: Task, taskId: string, placing: bool)
    requires user.Some? && !IsOwner(user, task)
    ensures BidButtonFor(user, task, taskId in WithBid(d, taskId).taskIds, placing) == BidPlaced
  {
    WithBidEffect(d, taskId);
  }
}
