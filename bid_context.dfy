/** The bid-summary cache of src/contexts/BidContext.jsx: the set of task
    ids the signed-in user has bid on, a count of bid opportunities and a
    `loadingBids` flag. The summary is replaced wholesale by a refresh
    from the server (or reset to empty on any failure) and grows by one
    idempotent insert per accepted or conflicting bid. */
module BidContext {
  import opened Basics
  import opened JsText
  import opened Http
  import opened AuthContext

  /** The state `{ taskIds, count }`. After a refresh `count` is whatever
      the server reports, so it need not be the size of `taskIds`. */
  datatype BidsData = BidsData(taskIds: set<string>, count: int)

  /** `{ taskIds: new Set(), count: 0 }` */
  const Empty := BidsData({}, 0)

  /** The JSON body of `GET /bids/user/{id}/summary`; either key may be
      missing. */
  datatype Summary = Summary(bidTaskIds: Option<seq<string>>, count: Option<int>)

  /** The body of `POST /bids`. */
  datatype BidRequest = BidRequest(taskId: string, userId: Option<string>,
                                   bidderEmail: Option<string>, bidderName: string)

  /** `{ taskIds: new Set(data.bidTaskIds || []), count: data.count || 0 }` */
  function FromSummary(d: Summary): (r: BidsData)
    ensures forall t :: t in r.taskIds <==> d.bidTaskIds.Some? && t in d.bidTaskIds.value
    ensures r.count == if d.count.Some? then d.count.value else 0
  {
    BidsData(
      if d.bidTaskIds.Some? then set t | t in d.bidTaskIds.value else {},
      if d.count.Some? then d.count.value else 0)
  }

  /** The updater `prev => ({ taskIds: new Set(prev.taskIds).add(taskId),
      count: prev.taskIds.has(taskId) ? prev.count : prev.count + 1 })`. */
  function WithBid(d: BidsData, t: string): BidsData
  {
    BidsData(d.taskIds + {t}, if t in d.taskIds then d.count else d.count + 1)
  }

  /** An insert records the task, keeps every other id, and raises the
      count by one exactly when the task was not yet recorded. */
  lemma WithBidEffect(d: BidsData, t: string)
    ensures t in WithBid(d, t).taskIds
    ensures forall u :: u != t ==> (u in WithBid(d, t).taskIds <==> u in d.taskIds)
    ensures WithBid(d, t).count == d.count + (if t in d.taskIds then 0 else 1)
  {
  }

  /** Inserting a recorded task changes nothing, so repeating an insert
      is the same as doing it once. */
  lemma WithBidIdempotent(d: BidsData, t: string)
    ensures t in d.taskIds ==> WithBid(d, t) == d
    ensures WithBid(WithBid(d, t), t) == WithBid(d, t)
  {
  }

  /** Inserts never move the count away from the size of the set: the
      difference the server last reported is kept exactly. */
  lemma WithBidKeepsGap(d: BidsData, t: string)
    ensures WithBid(d, t).count - |WithBid(d, t).taskIds| == d.count - |d.taskIds|
  {
    if t !in d.taskIds {
      assert |d.taskIds + {t}| == |d.taskIds| + 1;
    } else {
      assert d.taskIds + {t} == d.taskIds;
    }
  }

  /** The cache after a run of accepted bids, in order. */
  function WithBids(d: BidsData, ts: seq<string>): BidsData
    decreases |ts|
  {
    if ts == [] then d else WithBids(WithBid(d, ts[0]), ts[1..])
  }

  /** A run of bids records exactly the bid tasks, and the count rises by
      the number of distinct tasks that were not recorded before. */
  lemma {:induction false} WithBidsEffect(d: BidsData, ts: seq<string>)
    ensures WithBids(d, ts).taskIds == d.taskIds + set t | t in ts
    ensures WithBids(d, ts).count == d.count + |(set t | t in ts) - d.taskIds|
    decreases |ts|
  {
    if ts != [] {
      var d' := WithBid(d, ts[0]);
      WithBidsEffect(d', ts[1..]);
      var rest := set t | t in ts[1..];
      var all := set t | t in ts;
      assert all == {ts[0]} + rest;
      if ts[0] in d.taskIds {
        assert all - d.taskIds == rest - d'.taskIds;
      } else {
        assert all - d.taskIds == (rest - d'.taskIds) + {ts[0]};
        assert ts[0] !in rest - d'.taskIds;
      }
    }
  }

  /** However often the same task is bid on, the count rises at most once. */
  lemma RepeatedBidCountsOnce(d: BidsData, t: string, ts: seq<string>)
    requires forall i :: 0 <= i < |ts| ==> ts[i] == t
    ensures WithBids(d, ts).count <= d.count + 1
    ensures ts != [] ==> t in WithBids(d, ts).taskIds
    ensures ts != [] ==> WithBids(d, ts) == WithBid(d, t)
  {
    WithBidsEffect(d, ts);
    var all := set u | u in ts;
    if ts != [] {
      assert all == {t} by {
        assert ts[0] in all;
      }
      assert all - d.taskIds <= {t};
    } else {
      assert all == {};
    }
  }

  /** True when refreshing is triggered by the error of a failed bid. */
  predicate MentionsDuplicate(message: string)
  {
    Includes(message, "already placed a bid")
  }

  /** The message of the error `addBid` rethrows for a reply that is not ok:
      the server's message or 'Failed to place bid', or the message of the
      network error. */
  function BidErrorMessage(reply: Reply<()>): string
  {
    ThrownMessage(reply, "Failed to place bid")
  }

  /** The bid provider: the summary state, the loading flag, and a ghost
      log of every value handed to `setLoadingBids`, in order. */
  class BidProvider {
    var userBidsData: BidsData
    var loadingBids: bool
    ghost var loadingLog: seq<bool>

    /** `useState({ taskIds: new Set(), count: 0 })` and `useState(true)`. */
    constructor ()
      ensures userBidsData == Empty && loadingBids && loadingLog == []
    {
      userBidsData := Empty;
      loadingBids := true;
      loadingLog := [];
    }

    /** `hasBid(taskId)` */
    function HasBid(taskId: string): (b: bool)
      reads this
      ensures b <==> taskId in userBidsData.taskIds
    {
      taskId in userBidsData.taskIds
    }

    /** `totalBidOpportunities` */
    function TotalBidOpportunities(): (n: int)
      reads this
      ensures n == userBidsData.count
    {
      userBidsData.count
    }

    method SetLoadingBids(v: bool)
      modifies this`loadingBids, this`loadingLog
      ensures loadingBids == v && loadingLog == old(loadingLog) + [v]
    {
      loadingBids := v;
      loadingLog := loadingLog + [v];
    }

    /** `fetchUserBidSummary(currentUserId)`; `reply` is what the summary
        request gives. Returns whether a request was sent. */
    method FetchUserBidSummary(currentUserId: Option<string>, reply: Reply<Summary>)
      returns (fetched: bool)
      modifies this
      ensures fetched == Truthy(currentUserId)
      ensures !loadingBids
      ensures !fetched ==> userBidsData == Empty && loadingLog == old(loadingLog) + [false]
      ensures fetched ==> loadingLog == old(loadingLog) + [true, false]
      ensures fetched ==> userBidsData == if reply.Success? then FromSummary(reply.data) else Empty
      ensures fetched && reply.Success? ==>
        forall t :: HasBid(t) <==> reply.data.bidTaskIds.Some? && t in reply.data.bidTaskIds.value
    {
      if !Truthy(currentUserId) {
        userBidsData := Empty;
        SetLoadingBids(false);
        return false;
      }
      SetLoadingBids(true);
      if reply.Success? {
        userBidsData := FromSummary(reply.data);
      } else {
        userBidsData := Empty;
      }
      SetLoadingBids(false);
      fetched := true;
    }

    /** The effect that runs whenever `user` changes: load the summary of a
        signed-in user, reset it otherwise. */
    method OnUserChanged(user: Option<User>, reply: Reply<Summary>)
      modifies this
      ensures !loadingBids
      ensures user.None? || !Truthy(user.value.uid) ==> userBidsData == Empty
      ensures user.Some? && Truthy(user.value.uid) ==>
        userBidsData == if reply.Success? then FromSummary(reply.data) else Empty
    {
      if user.Some? && Truthy(user.value.uid) {
        var _ := FetchUserBidSummary(user.value.uid, reply);
      } else {
        userBidsData := Empty;
        SetLoadingBids(false);
      }
    }

    /** `refreshBids()`: reloads the summary of a signed-in user and does
        nothing at all otherwise. */
    method RefreshBids(user: Option<User>, reply: Reply<Summary>)
      modifies this
      ensures user.None? || !Truthy(user.value.uid) ==>
        userBidsData == old(userBidsData) && loadingBids == old(loadingBids) && loadingLog == old(loadingLog)
      ensures user.Some? && Truthy(user.value.uid) ==>
        !loadingBids && userBidsData == (if reply.Success? then FromSummary(reply.data) else Empty)
    {
      if user.Some? && Truthy(user.value.uid) {
        var _ := FetchUserBidSummary(user.value.uid, reply);
      }
    }

    /** `addBid(taskId)` for the signed-in `user`. `reply` is what the
        `POST /bids` request gives and `refresh` what the summary request
        gives if the error leads to a refresh. Returns the result of the
        call and the request body sent, if any. */
    method AddBid(user: Option<User>, taskId: string, reply: Reply<()>, refresh: Reply<Summary>)
      returns (r: Result<bool, string>, sent: Option<BidRequest>)
      modifies this
      ensures user.None? ==> r == Err("User not authenticated.") && sent == None
      ensures user.None? ==>
        userBidsData == old(userBidsData) && loadingBids == old(loadingBids) && loadingLog == old(loadingLog)
      ensures user.Some? ==> sent == Some(BidRequest(taskId, user.value.uid, user.value.email,
                                                     Or(user.value.displayName, "Anonymous Bidder")))
      ensures user.Some? && reply.Success? ==>
        r == Ok(true) && userBidsData == WithBid(old(userBidsData), taskId) &&
        loadingBids == old(loadingBids) && loadingLog == old(loadingLog)
      ensures user.Some? && !reply.Success? ==> r == Err(BidErrorMessage(reply))
      ensures user.Some? && !reply.Success? &&
              !(MentionsDuplicate(BidErrorMessage(reply)) && Truthy(user.value.uid)) ==>
        loadingBids == old(loadingBids) && loadingLog == old(loadingLog) &&
        userBidsData == if reply.HttpError? && reply.status == 409
                        then WithBid(old(userBidsData), taskId) else old(userBidsData)
      ensures user.Some? && !reply.Success? &&
              MentionsDuplicate(BidErrorMessage(reply)) && Truthy(user.value.uid) ==>
        !loadingBids && loadingLog == old(loadingLog) + [true, false] &&
        userBidsData == if refresh.Success? then FromSummary(refresh.data) else Empty
    {
      if user.None? {
        return Err("User not authenticated."), None;
      }
      var u := user.value;
      sent := Some(BidRequest(taskId, u.uid, u.email, Or(u.displayName, "Anonymous Bidder")));
      if reply.Success? {
        userBidsData := WithBid(userBidsData, taskId);
        return Ok(true), sent;
      }
      if reply.HttpError? && reply.status == 409 {
        // The snapshot check and the updater's check on `prev` read the
        // same state here, where every step runs in order.
        if taskId !in userBidsData.taskIds {
          userBidsData := WithBid(userBidsData, taskId);
        } else {
          WithBidIdempotent(userBidsData, taskId);
        }
      }
      var message := BidErrorMessage(reply);
      if MentionsDuplicate(message) && Truthy(u.uid) {
        var _ := FetchUserBidSummary(u.uid, refresh);
      }
      r := Err(message);
    }
  }

  /** A conflict reply whose message says the bid is a duplicate leads
      to a refresh, whatever else the message says around those words. */
  lemma DuplicateMessageRefreshes(before: string, after: string)
    ensures MentionsDuplicate(BidErrorMessage(HttpError(409, Some(before + "already placed a bid" + after))))
    ensures MentionsDuplicate(BidErrorMessage(NetworkError(before + "already placed a bid" + after)))
  {
    IncludesInfix(before, "already placed a bid", after);
  }

  /** A conflict reply without a message is rethrown as 'Failed to place
      bid', which does not lead to a refresh. */
  lemma BareConflictDoesNotRefresh()
    ensures BidErrorMessage(HttpError(409, None)) == "Failed to place bid"
    ensures !MentionsDuplicate(BidErrorMessage(HttpError(409, None)))
  {
    IncludesNoLonger("Failed to place bid", "already placed a bid");
  }
}
