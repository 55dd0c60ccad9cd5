/** The page of src/pages/MyBids.jsx listing the bids the signed-in user
    placed: the load effect, the status badge and the render gate. */
module MyBids {
  import opened Basics
  import opened Routing
  import opened AuthContext
  import opened Tasks
  import opened Sorting

  /** A bid as `GET /bids?bidderId=...` lists it, with the task it is
      for. `bidDate` is the number of milliseconds `new Date(bid.bidDate)`
      gives. */
  datatype Bid = Bid(id: string, status: Option<string>, bidDate: int, task: Task)

  /** The comparator `(a, b) => new Date(b.bidDate) - new Date(a.bidDate)`
      sorts by this key: newest first. */
  function NewestBidFirst(b: Bid): int
  {
    -b.bidDate
  }

  /** The three badges of the status column. */
  datatype Badge = Accepted | Rejected | Pending

  /** `getStatusBadge(status)`: a `switch` whose `'pending'` case shares
      the `default` branch. */
  function StatusBadge(status: Option<string>): (b: Badge)
    ensures b == Accepted <==> status == Some("accepted")
    ensures b == Rejected <==> status == Some("rejected")
    ensures b == Pending <==> status != Some("accepted") && status != Some("rejected")
  {
    if status == Some("accepted") then Accepted
    else if status == Some("rejected") then Rejected
    else Pending
  }

  /** A missing status, 'pending', and any text the switch does not list,
      in whatever letter case, all show as pending. */
  lemma StatusBadgeDefaults()
    ensures StatusBadge(None) == Pending
    ensures StatusBadge(Some("pending")) == Pending
    ensures StatusBadge(Some("Accepted")) == Pending
    ensures StatusBadge(Some("")) == Pending
  {
  }

  /** What the page shows. */
  datatype BidsScreen = BidsLoading | BidsFailed(message: string) | BidsList(empty: bool)

  /** The page's state, with a ghost log of every value handed to
      `setLoading`. */
  class MyBidsPage {
    var bids: seq<Bid>
    var loading: bool
    var error: Option<string>
    ghost var loadingLog: seq<bool>

    constructor ()
      ensures bids == [] && loading && error == None && loadingLog == []
    {
      bids := [];
      loading := true;
      error := None;
      loadingLog := [];
    }

    method SetLoading(v: bool)
      modifies this`loading, this`loadingLog
      ensures loading == v && loadingLog == old(loadingLog) + [v]
    {
      loading := v;
      loadingLog := loadingLog + [v];
    }

    /** The load effect; `reply` is what `GET /bids?bidderId={uid}` gives.
        Returns the navigation performed and whether the bids were
        requested. */
    method LoadEffect(user: Option<User>, authLoading: bool, reply: Reply<seq<Bid>>)
      returns (nav: Option<Navigation>, fetched: bool)
      modifies this`bids, this`loading, this`loadingLog, this`error
      ensures fetched <==> !authLoading && user.Some?
      ensures nav == SignedOutRedirect(authLoading, user.Some?, "/dashboard/my-bids")
      ensures !fetched ==>
        bids == old(bids) && loading == old(loading) && loadingLog == old(loadingLog) && error == old(error)
      ensures fetched ==> !loading && loadingLog == old(loadingLog) + [true, false]
      ensures fetched && reply.Success? ==>
        error == None && SortedBy(bids, NewestBidFirst) && multiset(bids) == multiset(reply.data) &&
        |bids| == |reply.data|
      ensures fetched && reply.HttpError? ==>
        error == Some("Failed to fetch your bids.") && bids == old(bids)
      ensures fetched && reply.NetworkError? ==>
        error == Some(reply.reason) && bids == old(bids)
    {
      nav := SignedOutRedirect(authLoading, user.Some?, "/dashboard/my-bids");
      fetched := !authLoading && user.Some?;
      if !fetched {
        return;
      }
      SetLoading(true);
      error := None;
      match reply {
        case Success(data) =>
          var sorted := SortedCopy(data, NewestBidFirst);
          bids := sorted;
        case HttpError(_, _) =>
          error := Some("Failed to fetch your bids.");
        case NetworkError(reason) =>
          error := Some(reason);
      }
      SetLoading(false);
    }

    /** The render gate `if (loading || authLoading) ...; if (error) ...;`
        and the empty-list note. */
    function View(authLoading: bool): (s: BidsScreen)
      reads this
      ensures s == BidsLoading <==> loading || authLoading
      ensures s.BidsFailed? <==> !(loading || authLoading) && Truthy(error)
      ensures s.BidsFailed? ==> s.message == error.value
      ensures s.BidsList? ==> (s.empty <==> bids == [])
    {
      if loading || authLoading then BidsLoading
      else if Truthy(error) then BidsFailed(error.value)
      else BidsList(|bids| == 0)
    }
  }

  /** After a successful load the newest bid comes first: no listed bid was
      placed later than the first one. */
  lemma NewestBidListedFirst(bids: seq<Bid>, b: Bid)
    requires SortedBy(bids, NewestBidFirst) && b in multiset(bids)
    ensures bids[0].bidDate >= b.bidDate
  {
    SortedHeadLeast(bids, NewestBidFirst, b);
  }
}
