/** The sign-in page of src/pages/Login.jsx: where it returns to after a
    sign-in, and its two handlers. */
module Login {
  import opened Basics
  import opened Routing
  import opened AuthContext
  import opened PrivateRoute

  /** `location.state?.from?.pathname || "/"`: the path to return to. */
  function From(loc: Location): (r: string)
    ensures r != ""
    ensures r == "/" ||
      (loc.state.Some? && loc.state.value.from.Some? && r == loc.state.value.from.value.pathname)
    ensures loc.state.Some? && loc.state.value.from.Some? && loc.state.value.from.value.pathname != "" ==>
      r == loc.state.value.from.value.pathname
  {
    if loc.state.Some? && loc.state.value.from.Some?
    then Or(Some(loc.state.value.from.value.pathname), "/")
    else "/"
  }

  /** The navigation a successful sign-in performs. */
  function ReturnTo(loc: Location): Navigation
  {
    Navigation(From(loc), None, true)
  }

  /** The guard's redirect round trip: a signed-out visit to a protected
      location lands on the login page, a sign-in there returns to the
      path first asked for, and once the user is known the guard shows
      that page. */
  lemma GuardRoundTrip(location: Location, u: User)
    requires location.pathname != ""
    ensures Guard(false, None, location).Redirect?
    ensures Arrive(Guard(false, None, location).nav).pathname == "/login"
    ensures Arrive(ReturnTo(Arrive(Guard(false, None, location).nav))).pathname == location.pathname
    ensures Guard(false, Some(u), Arrive(ReturnTo(Arrive(Guard(false, None, location).nav)))) == Children
  {
  }

  /** The same round trip for the redirects the pages issue themselves. */
  lemma PageRedirectRoundTrip(pathname: string)
    requires pathname != ""
    ensures ReturnTo(Arrive(LoginRedirect(pathname))) == Navigation(pathname, None, true)
  {
  }

  /** A visit to the login page that no redirect led to returns home. */
  lemma DirectVisitReturnsHome(pathname: string)
    ensures From(Location(pathname, None)) == "/"
    ensures From(Location(pathname, Some(RouteState(None)))) == "/"
  {
  }

  /** The login page: its two fields and the `isSubmitting` flag, with a
      ghost log of every value handed to `setIsSubmitting`. */
  class LoginPage {
    var email: string
    var password: string
    var isSubmitting: bool
    ghost var submittingLog: seq<bool>

    constructor ()
      ensures email == "" && password == "" && !isSubmitting && submittingLog == []
    {
      email := "";
      password := "";
      isSubmitting := false;
      submittingLog := [];
    }

    method SetIsSubmitting(v: bool)
      modifies this`isSubmitting, this`submittingLog
      ensures isSubmitting == v && submittingLog == old(submittingLog) + [v]
    {
      isSubmitting := v;
      submittingLog := submittingLog + [v];
    }

    /** `handleLogin` at `location`; `outcome` is what the provider's
        email sign-in gives. Returns the navigation performed, if any, and
        the dialog shown. */
    method HandleLogin(auth: AuthProvider, location: Location, outcome: Result<Account, AuthError>)
      returns (nav: Option<Navigation>, notice: Notice)
      modifies this`isSubmitting, this`submittingLog, auth`loading, auth`loadingLog
      ensures !isSubmitting && submittingLog == old(submittingLog) + [true, false]
      ensures auth.user == old(auth.user) && !auth.loading && auth.loadingLog == old(auth.loadingLog) + [true, false]
      ensures outcome.Ok? ==>
        nav == Some(ReturnTo(location)) && notice == Notice(SuccessIcon, "Logged In!", "Welcome back!")
      ensures outcome.Err? ==>
        nav == None && notice == Notice(ErrorIcon, "Login Failed",
          Or(outcome.error.message, "Please check your credentials and try again."))
    {
      SetIsSubmitting(true);
      var r := auth.Login(email, password, outcome);
      if r.Ok? {
        notice := Notice(SuccessIcon, "Logged In!", "Welcome back!");
        nav := Some(ReturnTo(location));
      } else {
        notice := Notice(ErrorIcon, "Login Failed", Or(r.error.message, "Please check your credentials and try again."));
        nav := None;
      }
      SetIsSubmitting(false);
    }

    /** `handleGoogleLogin` at `location`; `outcome` is what the provider's
        popup sign-in gives. */
    method HandleGoogleLogin(auth: AuthProvider, location: Location, outcome: Result<Account, AuthError>)
      returns (nav: Option<Navigation>, notice: Notice)
      modifies this`isSubmitting, this`submittingLog, auth`loading, auth`loadingLog
      ensures !isSubmitting && submittingLog == old(submittingLog) + [true, false]
      ensures auth.user == old(auth.user) && !auth.loading && auth.loadingLog == old(auth.loadingLog) + [true, false]
      ensures outcome.Ok? ==>
        nav == Some(ReturnTo(location)) && notice == Notice(SuccessIcon, "Logged In!", "Welcome!")
      ensures outcome.Err? ==>
        nav == None && notice == Notice(ErrorIcon, "Google Login Failed",
          Or(outcome.error.message, "An error occurred. Please try again."))
    {
      SetIsSubmitting(true);
      var r := auth.SignInWithGoogle(outcome);
      if r.Ok? {
        notice := Notice(SuccessIcon, "Logged In!", "Welcome!");
        nav := Some(ReturnTo(location));
      } else {
        notice := Notice(ErrorIcon, "Google Login Failed", Or(r.error.message, "An error occurred. Please try again."));
        nav := None;
      }
      SetIsSubmitting(false);
    }
  }
}
