/** The session manager of src/contexts/AuthContext.jsx: the signed-in
    `user` and the shared `loading` flag, changed by the identity
    provider's change notification and by the five asynchronous account
    operations. Every provider call is an outcome passed in by the caller. */
module AuthContext {
  import opened Basics

  /** An account as the identity provider reports it. The client reads
      only `uid`, `email`, `displayName` and `photoURL`. */
  datatype Account = Account(
    uid: string,
    email: Option<string>,
    displayName: Option<string>,
    photoURL: Option<string>,
    emailVerified: bool,
    providerId: string)

  /** The session record the client publishes as `user`. `uid` and `email`
      are absent only when a profile update was merged into a missing
      record (see `MergeProfile`). */
  datatype User = User(
    uid: Option<string>,
    email: Option<string>,
    displayName: Option<string>,
    photoURL: Option<string>)

  /** The object passed to the provider's `updateProfile`; `None` for a key
      the object does not have. */
  datatype ProfileData = ProfileData(displayName: Option<string>, photoURL: Option<string>)

  /** An error thrown by the provider or by the client: a provider code,
      when there is one, and a message. */
  datatype AuthError = AuthError(code: Option<string>, message: Option<string>)

  const NoUserLoggedIn := AuthError(None, Some("No user logged in"))

  /** The record the change notification publishes for an account. */
  function Project(a: Account): (u: User)
    ensures u.uid == Some(a.uid) && u.email == a.email
    ensures u.displayName == a.displayName && u.photoURL == a.photoURL
  {
    User(Some(a.uid), a.email, a.displayName, a.photoURL)
  }

  /** The projection forgets exactly the fields the client does not read:
      two accounts give the same record iff they agree on the four it
      keeps. */
  lemma ProjectIffSameFields(a: Account, b: Account)
    ensures Project(a) == Project(b) <==>
      a.uid == b.uid && a.email == b.email && a.displayName == b.displayName && a.photoURL == b.photoURL
  {
  }

  /** A request the client hands to the identity provider: account
      creation with its credentials, or a profile update of the account
      with that uid. */
  datatype ProviderCall =
    | CreateAccount(email: string, password: string)
    | UpdateProfile(uid: string, profile: ProfileData)

  /** The requests `signup(email, password, displayName)` makes: account
      creation, then, once an account exists, a profile update carrying
      the display name only. */
  function SignupCalls(email: string, password: string, displayName: string,
                       created: Result<Account, AuthError>): seq<ProviderCall>
  {
    [CreateAccount(email, password)] +
    if created.Ok? then [UpdateProfile(created.value.uid, ProfileData(Some(displayName), None))] else []
  }

  /** The updater `prevUser => ({ ...prevUser, displayName: current.displayName,
      photoURL: current.photoURL, ...profileData })`: spreading a missing
      record contributes no keys, then the provider's two fields are set,
      then every key of `profileData` overrides. */
  function MergeProfile(prev: Option<User>, current: Account, p: ProfileData): User
  {
    var base := if prev.Some? then prev.value else User(None, None, None, None);
    User(
      base.uid,
      base.email,
      if p.displayName.Some? then p.displayName else current.displayName,
      if p.photoURL.Some? then p.photoURL else current.photoURL)
  }

  /** The merge keeps the identity of the previous record and takes each
      profile field from `profileData` when it has the key, else from the
      provider (last write wins). */
  lemma MergeProfileFields(prev: Option<User>, current: Account, p: ProfileData)
    ensures prev.Some? ==> MergeProfile(prev, current, p).uid == prev.value.uid
    ensures prev.Some? ==> MergeProfile(prev, current, p).email == prev.value.email
    ensures prev.None? ==> MergeProfile(prev, current, p).uid.None?
    ensures MergeProfile(prev, current, p).displayName ==
      (if p.displayName.Some? then p.displayName else current.displayName)
    ensures MergeProfile(prev, current, p).photoURL ==
      (if p.photoURL.Some? then p.photoURL else current.photoURL)
  {
  }

  /** When `profileData` has both keys, what the provider reports does not
      matter; merging the same data twice changes nothing more. */
  lemma MergeProfileDataWins(prev: Option<User>, a: Account, b: Account, p: ProfileData)
    requires p.displayName.Some? && p.photoURL.Some?
    ensures MergeProfile(prev, a, p) == MergeProfile(prev, b, p)
    ensures MergeProfile(Some(MergeProfile(prev, a, p)), a, p) == MergeProfile(prev, a, p)
  {
  }

  /** The merge is a shortcut for the provider's next change notification.
      Whatever the provider reports for the same account, the two agree iff
      the provider reports back exactly each key `profileData` has. A
      provider that stores an empty photo address as `null` therefore
      disagrees with the merge, which keeps `""`. */
  lemma MergeAgreesWithProvider(a: Account, reported: Account, p: ProfileData)
    requires reported.uid == a.uid && reported.email == a.email
    ensures MergeProfile(Some(Project(a)), reported, p) == Project(reported) <==>
      (p.displayName.Some? ==> reported.displayName == p.displayName) &&
      (p.photoURL.Some? ==> reported.photoURL == p.photoURL)
  {
  }

  /** Where the merge keeps `""` and the provider reports `null`, the
      profile form fills the same text from either, since both are falsy. */
  lemma EmptyPhotoPrefillsAlike(a: Account, reported: Account, p: ProfileData)
    requires reported.uid == a.uid && reported.email == a.email
    requires p.photoURL == Some("") && reported.photoURL.None?
    ensures MergeProfile(Some(Project(a)), reported, p) != Project(reported)
    ensures Or(MergeProfile(Some(Project(a)), reported, p).photoURL, "") == Or(Project(reported).photoURL, "")
  {
  }

  /** The provider wrapper: `user`, `loading`, and a ghost log of every
      value handed to `setLoading`, in order. */
  class AuthProvider {
    var user: Option<User>
    var loading: bool
    ghost var loadingLog: seq<bool>

    /** `useState(null)` and `useState(true)`. */
    constructor ()
      ensures user == None && loading && loadingLog == []
    {
      user := None;
      loading := true;
      loadingLog := [];
    }

    method SetLoading(v: bool)
      modifies this`loading, this`loadingLog
      ensures loading == v && loadingLog == old(loadingLog) + [v]
    {
      loading := v;
      loadingLog := loadingLog + [v];
    }

    /** The `onAuthStateChanged` callback. */
    method OnAuthStateChanged(currentUser: Option<Account>)
      modifies this
      ensures user == (if currentUser.Some? then Some(Project(currentUser.value)) else None)
      ensures !loading && loadingLog == old(loadingLog) + [false]
    {
      if currentUser.Some? {
        user := Some(Project(currentUser.value));
      } else {
        user := None;
      }
      SetLoading(false);
    }

    /** `signup(email, password, displayName)`: `created` is what
        `createUserWithEmailAndPassword` gives, `profiled` the created
        account itself (`userCredential.user`, same uid) as it stands once
        the following `updateProfile` has resolved, or that call's error.
        Returns that account and the requests made. */
    method Signup(email: string, password: string, displayName: string,
                  created: Result<Account, AuthError>, profiled: Result<Account, AuthError>)
      returns (r: Result<Account, AuthError>, calls: seq<ProviderCall>)
      requires created.Ok? && profiled.Ok? ==> profiled.value.uid == created.value.uid
      modifies this`loading, this`loadingLog
      ensures !loading && loadingLog == old(loadingLog) + [true, false]
      ensures calls == SignupCalls(email, password, displayName, created)
      ensures created.Err? ==> r == Err(created.error)
      ensures created.Ok? ==> r == profiled
      ensures r.Ok? ==> created.Ok? && r.value.uid == created.value.uid
    {
      SetLoading(true);
      calls := [CreateAccount(email, password)];
      if created.Err? {
        SetLoading(false);
        return Err(created.error), calls;
      }
      calls := calls + [UpdateProfile(created.value.uid, ProfileData(Some(displayName), None))];
      SetLoading(false);
      r := profiled;
    }

    /** `login(email, password)`; `outcome` is what
        `signInWithEmailAndPassword` gives. */
    method Login(email: string, password: string, outcome: Result<Account, AuthError>)
      returns (r: Result<Account, AuthError>)
      modifies this`loading, this`loadingLog
      ensures r == outcome
      ensures !loading && loadingLog == old(loadingLog) + [true, false]
    {
      SetLoading(true);
      r := outcome;
      SetLoading(false);
    }

    /** `signInWithGoogle()`; `outcome` is what `signInWithPopup` gives. */
    method SignInWithGoogle(outcome: Result<Account, AuthError>)
      returns (r: Result<Account, AuthError>)
      modifies this`loading, this`loadingLog
      ensures r == outcome
      ensures !loading && loadingLog == old(loadingLog) + [true, false]
    {
      SetLoading(true);
      r := outcome;
      SetLoading(false);
    }

    /** `logout()`; `outcome` is what `signOut` gives. The record is
        cleared later, by the change notification. */
    method Logout(outcome: Result<(), AuthError>) returns (r: Result<(), AuthError>)
      modifies this`loading, this`loadingLog
      ensures r == outcome
      ensures !loading && loadingLog == old(loadingLog) + [true, false]
    {
      SetLoading(true);
      r := outcome;
      SetLoading(false);
    }

    /** `updateUserProfileData(profileData)`: `currentUser` is the provider's
        signed-in account, `outcome` the account the provider reports once
        `updateProfile` has resolved, or its error. */
    method UpdateUserProfileData(profileData: ProfileData, currentUser: Option<Account>,
                                 outcome: Result<Account, AuthError>)
      returns (r: Result<(), AuthError>)
      modifies this
      ensures currentUser.None? ==> r == Err(NoUserLoggedIn)
      ensures currentUser.None? ==>
        user == old(user) && loading == old(loading) && loadingLog == old(loadingLog)
      ensures currentUser.Some? ==> !loading && loadingLog == old(loadingLog) + [true, false]
      ensures currentUser.Some? && outcome.Ok? ==>
        r == Ok(()) && user == Some(MergeProfile(old(user), outcome.value, profileData))
      ensures currentUser.Some? && outcome.Err? ==> r == Err(outcome.error) && user == old(user)
    {
      if currentUser.None? {
        return Err(NoUserLoggedIn);
      }
      SetLoading(true);
      if outcome.Err? {
        SetLoading(false);
        return Err(outcome.error);
      }
      user := Some(MergeProfile(user, outcome.value, profileData));
      SetLoading(false);
      r := Ok(());
    }
  }
}
