/** The registration page of src/pages/Signup.jsx: the password and
    photo-URL check chain, the error text shown for a failed sign-up, and
    the two handlers around the session calls. */
module Signup {
  import opened Basics
  import opened JsText
  import opened Routing
  import opened AuthContext

  const TooShort := "Password must be at least 6 characters long."
  const NoUppercase := "Password must contain at least one uppercase letter."
  const NoLowercase := "Password must contain at least one lowercase letter."
  const BadPhotoURL := "Please enter a valid URL for the photo."

  /** `/[A-Z]/.test(s)` */
  predicate HasUpper(s: string)
  {
    exists i :: 0 <= i < |s| && 'A' <= s[i] <= 'Z'
  }

  /** `/[a-z]/.test(s)` */
  predicate HasLower(s: string)
  {
    exists i :: 0 <= i < |s| && 'a' <= s[i] <= 'z'
  }

  /** The checks of `handleSignup`, in order: the text of the first that
      fails, or `None` when the input may be submitted. */
  function SignupCheck(password: string, photoURL: string): Option<string>
  {
    if |password| < 6 then Some(TooShort)
    else if !HasUpper(password) then Some(NoUppercase)
    else if !HasLower(password) then Some(NoLowercase)
    else if photoURL != "" && !StartsWith(photoURL, "http") then Some(BadPhotoURL)
    else None
  }

  /** The input is accepted iff every rule holds, and a rejection names
      the first rule broken: every earlier rule holds. */
  lemma SignupCheckMeaning(password: string, photoURL: string)
    ensures SignupCheck(password, photoURL) == None <==>
      |password| >= 6 && HasUpper(password) && HasLower(password) &&
      (photoURL == "" || StartsWith(photoURL, "http"))
    ensures SignupCheck(password, photoURL) == Some(TooShort) <==> |password| < 6
    ensures SignupCheck(password, photoURL) == Some(NoUppercase) <==>
      |password| >= 6 && !HasUpper(password)
    ensures SignupCheck(password, photoURL) == Some(NoLowercase) <==>
      |password| >= 6 && HasUpper(password) && !HasLower(password)
    ensures SignupCheck(password, photoURL) == Some(BadPhotoURL) <==>
      |password| >= 6 && HasUpper(password) && HasLower(password) &&
      photoURL != "" && !StartsWith(photoURL, "http")
  {
  }

  /** Six characters with both cases and no photo are enough; a photo
      address must begin with "http" (so "https://..." passes). */
  lemma SignupCheckExamples()
    ensures SignupCheck("Secret", "") == None
    ensures SignupCheck("secret", "") == Some(NoUppercase)
    ensures SignupCheck("Ab", "ftp://x") == Some(TooShort)
    ensures SignupCheck("Secret", "https://x") == None
    ensures SignupCheck("Secret", "ftp://x") == Some(BadPhotoURL)
  {
    assert "Secret"[0] == 'S' && "Secret"[1] == 'e';
    assert "ftp://x"[..4][0] == 'f' != "http"[0];
    assert "https://x"[..4] == "http";
  }

  /** The text of the dialog for a failed sign-up. */
  function SignupErrorMessage(err: AuthError): (m: string)
    ensures err.code == Some("auth/email-already-in-use") ==> m == "This email address is already in use."
    ensures err.code != Some("auth/email-already-in-use") && Truthy(err.message) ==> m == err.message.value
    ensures err.code != Some("auth/email-already-in-use") && !Truthy(err.message) ==>
      m == "Failed to create an account. Please try again."
    ensures m != ""
  {
    if err.code == Some("auth/email-already-in-use") then "This email address is already in use."
    else if Truthy(err.message) then err.message.value
    else "Failed to create an account. Please try again."
  }

  /** The registration page: its four fields and the `isSubmitting` flag,
      with a ghost log of every value handed to `setIsSubmitting`. */
  class SignupPage {
    var email: string
    var password: string
    var displayName: string
    var photoURL: string
    var isSubmitting: bool
    ghost var submittingLog: seq<bool>

    constructor ()
      ensures email == "" && password == "" && displayName == "" && photoURL == ""
      ensures !isSubmitting && submittingLog == []
    {
      email := "";
      password := "";
      displayName := "";
      photoURL := "";
      isSubmitting := false;
      submittingLog := [];
    }

    method SetIsSubmitting(v: bool)
      modifies this`isSubmitting, this`submittingLog
      ensures isSubmitting == v && submittingLog == old(submittingLog) + [v]
    {
      isSubmitting := v;
      submittingLog := submittingLog + [v];
    }

    /** `handleSignup`; `created` and `profiled` are what the provider's
        account creation and profile update give. Returns the dialog
        shown, the navigation performed, and whether `signup` was called.
        The page passes `photoURL` as a fourth argument, which `signup`
        does not take, so the photo never reaches the provider. */
    method HandleSignup(auth: AuthProvider, created: Result<Account, AuthError>,
                        profiled: Result<Account, AuthError>)
      returns (notice: Notice, nav: Option<Navigation>, called: bool, calls: seq<ProviderCall>)
      requires created.Ok? && profiled.Ok? ==> profiled.value.uid == created.value.uid
      modifies this`isSubmitting, this`submittingLog, auth`loading, auth`loadingLog
      ensures called <==> SignupCheck(password, photoURL) == None
      ensures called ==> calls == SignupCalls(email, password, displayName, created)
      ensures !called ==> calls == []
      ensures auth.user == old(auth.user)
      ensures !called ==>
        notice == Notice(WarningIcon, "Validation Error", SignupCheck(password, photoURL).value) &&
        nav == None && isSubmitting == old(isSubmitting) && submittingLog == old(submittingLog) &&
        auth.loading == old(auth.loading) && auth.loadingLog == old(auth.loadingLog)
      ensures called ==> !isSubmitting && submittingLog == old(submittingLog) + [true, false]
      ensures called ==> !auth.loading && auth.loadingLog == old(auth.loadingLog) + [true, false]
      ensures called && created.Ok? && profiled.Ok? ==>
        notice == Notice(SuccessIcon, "Account Created!", "Welcome to TalentSphere!") && nav == Some(GoTo("/"))
      ensures called && created.Err? ==>
        notice == Notice(ErrorIcon, "Signup Failed", SignupErrorMessage(created.error)) && nav == None
      ensures called && created.Ok? && profiled.Err? ==>
        notice == Notice(ErrorIcon, "Signup Failed", SignupErrorMessage(profiled.error)) && nav == None
    {
      var check := SignupCheck(password, photoURL);
      if check.Some? {
        return Notice(WarningIcon, "Validation Error", check.value), None, false, [];
      }
      called := true;
      SetIsSubmitting(true);
      var r;
      r, calls := auth.Signup(email, password, displayName, created, profiled);
      if r.Ok? {
        notice := Notice(SuccessIcon, "Account Created!", "Welcome to TalentSphere!");
        nav := Some(GoTo("/"));
      } else {
        notice := Notice(ErrorIcon, "Signup Failed", SignupErrorMessage(r.error));
        nav := None;
      }
      SetIsSubmitting(false);
    }

    /** `handleGoogleLogin` on the registration page. */
    method HandleGoogleLogin(auth: AuthProvider, outcome: Result<Account, AuthError>)
      returns (notice: Notice, nav: Option<Navigation>)
      modifies this`isSubmitting, this`submittingLog, auth`loading, auth`loadingLog
      ensures !isSubmitting && submittingLog == old(submittingLog) + [true, false]
      ensures auth.user == old(auth.user) && !auth.loading && auth.loadingLog == old(auth.loadingLog) + [true, false]
      ensures outcome.Ok? ==>
        notice == Notice(SuccessIcon, "Account Created/Logged In!", "Welcome!") && nav == Some(GoTo("/"))
      ensures outcome.Err? ==>
        notice == Notice(ErrorIcon, "Google Sign-In Failed",
          Or(outcome.error.message, "An error occurred. Please try again.")) && nav == None
    {
      SetIsSubmitting(true);
      var r := auth.SignInWithGoogle(outcome);
      if r.Ok? {
        notice := Notice(SuccessIcon, "Account Created/Logged In!", "Welcome!");
        nav := Some(GoTo("/"));
      } else {
        notice := Notice(ErrorIcon, "Google Sign-In Failed", Or(r.error.message, "An error occurred. Please try again."));
        nav := None;
      }
      SetIsSubmitting(false);
    }
  }

  /** A sign-up creates exactly one account, with the credentials given,
      and sends at most one profile update, to that account, carrying the
      display name and no photo key: whatever photo address the form holds,
      the provider keeps the photo it created the account with. */
  lemma SignupIgnoresPhoto(email: string, password: string, displayName: string,
                           created: Result<Account, AuthError>)
    ensures SignupCalls(email, password, displayName, created)[0] == CreateAccount(email, password)
    ensures forall i :: 1 <= i < |SignupCalls(email, password, displayName, created)| ==>
      SignupCalls(email, password, displayName, created)[i] ==
        UpdateProfile(created.value.uid, ProfileData(Some(displayName), None))
    ensures |SignupCalls(email, password, displayName, created)| == if created.Ok? then 2 else 1
  {
  }
}
