/** The parts of client-side routing the pages rely on: the current
    location with the state object a navigation carried, and the
    navigations the pages and the route guard ask for. */
module Routing {
  import opened Basics

  /** A history entry: its path and the state it was pushed with. */
  datatype Location = Location(pathname: string, state: Option<RouteState>)

  /** The state object `{ from }` the login redirects carry; `from` is
      the location to return to. */
  datatype RouteState = RouteState(from: Option<Location>)

  /** A call `navigate(to, { state, replace })` or a rendered
      `<Navigate to state replace />`. */
  datatype Navigation = Navigation(to: string, state: Option<RouteState>, replace: bool)

  /** The location a navigation leads to. */
  function Arrive(n: Navigation): Location
  {
    Location(n.to, n.state)
  }

  /** `navigate(path)` without options. */
  function GoTo(path: string): Navigation
  {
    Navigation(path, None, false)
  }

  /** `navigate('/login', { state: { from: { pathname } } })`, the redirect
      every protected page issues when nobody is signed in. */
  function LoginRedirect(pathname: string): Navigation
  {
    Navigation("/login", Some(RouteState(Some(Location(pathname, None)))), false)
  }

  /** A route parameter interpolated into a path: `${taskId}` writes
      "undefined" for a missing one. */
  function PathParam(p: Option<string>): string
  {
    if p.Some? then p.value else "undefined"
  }

  /** The effect shared by the protected pages: once the session has
      loaded, a signed-out visitor is sent to the login page, which will
      return to `pathname`. */
  function SignedOutRedirect(authLoading: bool, signedIn: bool, pathname: string): (r: Option<Navigation>)
    ensures r.Some? <==> !authLoading && !signedIn
    ensures r.Some? ==>
      Arrive(r.value).pathname == "/login" &&
      Arrive(r.value).state == Some(RouteState(Some(Location(pathname, None))))
  {
    if !authLoading && !signedIn then Some(LoginRedirect(pathname)) else None
  }
}
