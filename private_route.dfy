/** The route guard of src/routes/PrivateRoute.jsx. */
module PrivateRoute {
  import opened Basics
  import opened Routing
  import opened AuthContext

  /** What the guard renders. */
  datatype View = Spinner | Redirect(nav: Navigation) | Children

  /** The guard for the current `location`, given the session's `loading`
      flag and `user`. */
  function Guard(loading: bool, user: Option<User>, location: Location): (v: View)
    ensures v == Spinner <==> loading
    ensures v == Children <==> !loading && user.Some?
    ensures v.Redirect? <==> !loading && user.None?
    ensures v.Redirect? ==>
      v.nav.to == "/login" && v.nav.replace && v.nav.state == Some(RouteState(Some(location)))
  {
    if loading then Spinner
    else if user.None? then Redirect(Navigation("/login", Some(RouteState(Some(location))), true))
    else Children
  }

  /** While the session is loading, the guard's answer does not depend on
      the user or the location. */
  lemma GuardWaitsForSession(u1: Option<User>, u2: Option<User>, l1: Location, l2: Location)
    ensures Guard(true, u1, l1) == Guard(true, u2, l2)
  {
  }
}
