/** The profile dialog of src/components/EditProfileModal.jsx: its
    prefill effect, the blank-name check, and `handleSubmit` around the
    session's profile update. */
module EditProfileModal {
  import opened Basics
  import opened JsText
  import opened AuthContext

  /** A call the dialog makes to its parent, in order. */
  datatype Callback = OnProfileUpdate | OnClose

  /** The profile object the dialog hands to `updateUserProfileData`. */
  function SubmittedProfile(displayName: string, photoURL: string): ProfileData
  {
    ProfileData(Some(displayName), Some(photoURL))
  }

  /** The dialog's two inputs and `isSubmitting`, with a ghost log of
      every value handed to `setIsSubmitting`. */
  class EditProfileDialog {
    var displayName: string
    var photoURL: string
    var isSubmitting: bool
    ghost var submittingLog: seq<bool>

    constructor ()
      ensures displayName == "" && photoURL == "" && !isSubmitting && submittingLog == []
    {
      displayName := "";
      photoURL := "";
      isSubmitting := false;
      submittingLog := [];
    }

    method SetIsSubmitting(v: bool)
      modifies this`isSubmitting, this`submittingLog
      ensures isSubmitting == v && submittingLog == old(submittingLog) + [v]
    {
      isSubmitting := v;
      submittingLog := submittingLog + [v];
    }

    /** The effect run when `user` or `isOpen` changes. */
    method PrefillEffect(user: Option<User>)
      modifies this`displayName, this`photoURL
      ensures user.Some? ==> displayName == Or(user.value.displayName, "") && photoURL == Or(user.value.photoURL, "")
      ensures user.None? ==> displayName == old(displayName) && photoURL == old(photoURL)
    {
      if user.Some? {
        displayName := Or(user.value.displayName, "");
        photoURL := Or(user.value.photoURL, "");
      }
    }

    /** `handleSubmit`; `onProfileUpdate` says whether the parent passed
        that callback, and `currentUser` and `outcome` are what the session's
        profile update sees and gets from the provider. Returns the dialog
        shown and the parent's callbacks made. */
    method HandleSubmit(auth: AuthProvider, onProfileUpdate: bool,
                        currentUser: Option<Account>, outcome: Result<Account, AuthError>)
      returns (notice: Notice, calls: seq<Callback>)
      modifies this`isSubmitting, this`submittingLog, auth
      ensures !isSubmitting && submittingLog == old(submittingLog) + [true, false]
      ensures Trim(displayName) == "" ==>
        notice == Notice(WarningIcon, "Validation Error", "Display Name cannot be empty.") && calls == [] &&
        auth.user == old(auth.user) && auth.loading == old(auth.loading) && auth.loadingLog == old(auth.loadingLog)
      ensures Trim(displayName) != "" && currentUser.None? ==>
        notice == Notice(ErrorIcon, "Update Failed", "No user logged in") && calls == [] &&
        auth.user == old(auth.user) && auth.loading == old(auth.loading) && auth.loadingLog == old(auth.loadingLog)
      ensures Trim(displayName) != "" && currentUser.Some? ==>
        !auth.loading && auth.loadingLog == old(auth.loadingLog) + [true, false]
      ensures Trim(displayName) != "" && currentUser.Some? && outcome.Ok? ==>
        auth.user == Some(MergeProfile(old(auth.user), outcome.value, SubmittedProfile(displayName, photoURL))) &&
        auth.user.value.displayName == Some(displayName) && auth.user.value.photoURL == Some(photoURL) &&
        notice == Notice(SuccessIcon, "Profile Updated!", "Your profile has been successfully updated.") &&
        calls == (if onProfileUpdate then [OnProfileUpdate] else []) + [OnClose]
      ensures Trim(displayName) != "" && currentUser.Some? && outcome.Err? ==>
        auth.user == old(auth.user) && calls == [] &&
        notice == Notice(ErrorIcon, "Update Failed", Or(outcome.error.message, "Could not update your profile."))
    {
      SetIsSubmitting(true);
      if Trim(displayName) == "" {
        notice := Notice(WarningIcon, "Validation Error", "Display Name cannot be empty.");
        SetIsSubmitting(false);
        return notice, [];
      }
      var profileData := SubmittedProfile(displayName, photoURL);
      var r := auth.UpdateUserProfileData(profileData, currentUser, outcome);
      if r.Ok? {
        MergeProfileFields(old(auth.user), outcome.value, profileData);
        notice := Notice(SuccessIcon, "Profile Updated!", "Your profile has been successfully updated.");
        calls := (if onProfileUpdate then [OnProfileUpdate] else []) + [OnClose];
      } else {
        notice := Notice(ErrorIcon, "Update Failed", Or(r.error.message, "Could not update your profile."));
        calls := [];
      }
      SetIsSubmitting(false);
    }

    /** The dialog's markup: nothing while closed, the inputs while open. */
    function Rendered(isOpen: bool): (r: Option<(string, string)>)
      reads this
      ensures r.None? <==> !isOpen
      ensures r.Some? ==> r.value == (displayName, photoURL)
    {
      if !isOpen then None else Some((displayName, photoURL))
    }
  }

  /** A name is rejected exactly when it is blank; the name sent is the one
      typed, not trimmed, so surrounding spaces reach the profile. */
  lemma SubmitsUntrimmedName(displayName: string, photoURL: string)
    ensures Trim(displayName) == "" <==> AllSpace(displayName)
    ensures SubmittedProfile(displayName, photoURL).displayName == Some(displayName)
    ensures SubmittedProfile(" Ann ", photoURL).displayName != Some(Trim(" Ann "))
  {
    TrimEmptyIffBlank(displayName);
    assert IsSpace(" Ann "[0]);
    assert |Trim(" Ann ")| <= 4 by {
      assert TrimStart(" Ann ") != " Ann ";
    }
  }
}
