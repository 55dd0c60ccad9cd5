# TalentSphere client, modelled in Dafny

TalentSphere is a freelance marketplace. Posters list tasks with a
budget and a deadline, and freelancers browse them and bid. This project
models the logic of its React client:

- the **session provider** (`AuthContext`): the signed-in `user`, the
  shared `loading` flag, and the merge done by a profile update;
- the **bid-summary cache** (`BidContext`): the set of task ids the user
  has bid on, the `count` the server reports, `loadingBids`, and the
  insert `addBid` does on success and on a 409 conflict;
- the **form check chains** of sign-up, posting a task, editing a task
  and editing a profile, with the records they send and the
  `isSubmitting` flag they reset;
- the **list operations** of the pages: newest-first sorting of fetched
  lists, replace-by-id and delete-by-id, the first six tasks by deadline
  on the landing page, the carousel index, description excerpts and the
  bid status badge;
- the **decisions** of the route guard, the login return path, the bid
  button, the banner noun, the error page and the menu filter.

Every page or context whose fields change step by step is a `class` with
those fields. Each setter the source calls around an awaited request
appends to a ghost log, so "true on entry, false on every exit" is
stated as `log == old(log) + [true, false]`. The pure expressions
(filters, updaters, checks, mappings) are functions with lemmas. All
effects run sequentially. Each reply from the server or the identity
provider is a parameter: `Reply<T>` is `Success`, `HttpError(status,
message)` or `NetworkError(reason)`, and `Result` holds a provider
outcome. Dialogs (`Notice`) and navigations (`Navigation`) are return
values.

Modules:

| module | file | what it holds |
|---|---|---|
| `Basics` | basics.dfy | Option, Result, JavaScript truthiness and `||` on strings, `Reply`, the render gate `Gate`, `Notice` |
| `JsText` | js_text.dfy | string `<`, `trim`, `startsWith`, `includes`, `substring`, `parseFloat`, `Number.prototype.toString` |
| `Http` | http.dfy | the messages pages throw and show for a failed reply |
| `Routing` | routing.dfy | locations, the `{ from }` state, and the login redirect every protected page issues |
| `Sorting` | sorting.dfy | the in-place sort by a key (insertion sort on an `array`), a sorted copy, and the first `n` by key |
| `Tasks` | tasks.dfy | the stored task, the `{ ...task, ...update }` spread, and `split('T')[0]` |
| `TaskForm` | task_form.dfy | the required / budget / deadline check chain shared by the three task forms, and the edit prefill |
| one module per core file | the other files | the page, component or context of that name |

## Model

Each definition that models the source directly (`TaskForm.CheckTask`,
`JsText.Trim`, `Header.VisibleItems` and the like) is listed through the
lemma or contract that characterises it, on a row citing the same lines.

| member | source | states |
|---|---|---|
| Basics.Gate | src/pages/UpdateTask.jsx:147-157 | the screen is the spinner iff loading; otherwise the error iff the error text is truthy, showing that text; otherwise "not found" iff the data is missing; otherwise the page |
| Http.ThrownMessage | src/pages/AddTask.jsx:109-112 | a failed response throws the server's message when there is one and else the fixed fallback, never empty when the fallback is not; a network failure keeps its own message |
| Http.FetchErrorMessageShown | src/pages/TaskDetail.jsx:29-31 | a failed response always leaves a message to show, and without a server message it is "HTTP error! status: " followed by the status |
| Http.CaughtText | src/pages/BrowseTask.jsx:24-34 | a catch block shows the error's message when it is non-empty and its fallback otherwise |
| Routing.SignedOutRedirect | src/pages/MyBids.jsx:14-19 | a redirect happens iff the session has loaded and nobody is signed in; it goes to /login and carries the page's own path as `from` |
| PrivateRoute.Guard | src/routes/PrivateRoute.jsx:9-24 | spinner iff loading; the protected children iff loaded with a user; otherwise a replacing redirect to /login whose state `from` is the current location |
| PrivateRoute.GuardWaitsForSession | src/routes/PrivateRoute.jsx:9-16 | while the session loads, the answer depends neither on the user nor on the location |
| Login.From | src/pages/Login.jsx:14 | the return path is never empty; it is the `from` pathname when that is non-empty, and "/" otherwise |
| Login.GuardRoundTrip | src/routes/PrivateRoute.jsx:18-21 | a signed-out visit to a protected path lands on /login, a sign-in there returns to exactly that path, and the guard then shows the page |
| Login.PageRedirectRoundTrip | src/pages/MyPostedTasks.jsx:20-22 | the login redirect a page issues for its path leads a successful sign-in back to that path, replacing the history entry |
| Login.DirectVisitReturnsHome | src/pages/Login.jsx:14 | a visit to the login page without a `from` returns home |
| Login.LoginPage.constructor | src/pages/Login.jsx:7-9 | the fields start empty and the page is not submitting |
| Login.LoginPage.HandleLogin | src/pages/Login.jsx:16-38 | `isSubmitting` is set and then cleared on both paths; the session's loading flag toggles and ends false, and its user is left alone; success shows "Logged In!" and returns to `from` with replace; failure shows the error's message or the fixed fallback and does not navigate |
| Login.LoginPage.HandleGoogleLogin | src/pages/Login.jsx:40-61 | the same for the popup sign-in, with its own texts; the session's loading flag ends false |
| AuthContext.Project | src/contexts/AuthContext.jsx:28-35 | the session user holds exactly the account's uid, email, display name and photo |
| AuthContext.ProjectIffSameFields | src/contexts/AuthContext.jsx:28-35 | two accounts give the same session user iff they agree on those four fields |
| AuthContext.MergeProfileFields | src/contexts/AuthContext.jsx:105-110 | a merged profile keeps the previous uid and email; the name and photo come from the update when it names them and from the provider's account otherwise |
| AuthContext.MergeProfileDataWins | src/contexts/AuthContext.jsx:105-110 | an update naming both fields decides them whatever the account says, and merging it twice is merging it once |
| AuthContext.MergeAgreesWithProvider | src/contexts/AuthContext.jsx:100-116 | for any account the provider reports for the same user, the merged record equals what its next change notification publishes iff the provider reports back each key `profileData` has |
| AuthContext.EmptyPhotoPrefillsAlike | src/contexts/AuthContext.jsx:105-110 | a provider that reports an empty photo address back as `null` disagrees with the merge, yet the profile form prefills the same empty text from either |
| AuthContext.AuthProvider.constructor | src/contexts/AuthContext.jsx:24-25 | nobody is signed in and the session is loading |
| AuthContext.AuthProvider.OnAuthStateChanged | src/contexts/AuthContext.jsx:28-40 | a notification with an account sets the user to its projection, one without clears it; both end loading |
| AuthContext.AuthProvider.Signup | src/contexts/AuthContext.jsx:45-59 | loading is set and cleared on every path; the account is created with the given email and password, and only then is a profile update with the display name alone sent to it; a creation failure is passed on, otherwise the profile step's outcome is |
| AuthContext.AuthProvider.Login | src/contexts/AuthContext.jsx:61-72 | passes the provider's outcome on, setting and clearing loading, and never assigns the user |
| AuthContext.AuthProvider.SignInWithGoogle | src/contexts/AuthContext.jsx:74-86 | the same for the popup sign-in |
| AuthContext.AuthProvider.Logout | src/contexts/AuthContext.jsx:88-98 | the same for sign-out: the user is only cleared by the later notification |
| AuthContext.AuthProvider.UpdateUserProfileData | src/contexts/AuthContext.jsx:100-121 | without an account it fails with "No user logged in" and changes neither loading nor the user; otherwise loading toggles, success stores the merged profile and failure keeps the user |
| BidContext.FromSummary | src/contexts/BidContext.jsx:33-36 | the cache holds exactly the ids the summary lists (none when the list is missing) and the server's count (0 when missing) |
| BidContext.WithBidEffect | src/contexts/BidContext.jsx:84-88 | an accepted bid records its task, keeps every other id, and raises the count by one iff the task was not recorded |
| BidContext.WithBidIdempotent | src/contexts/BidContext.jsx:84-88 | a bid on a recorded task changes nothing, so repeating an insert is a single insert |
| BidContext.WithBidKeepsGap | src/contexts/BidContext.jsx:84-88 | an insert keeps the difference between the count and the size of the set, so inserts alone never break `count == |taskIds|` |
| BidContext.WithBidsEffect | src/contexts/BidContext.jsx:84-88 | a run of accepted bids records exactly the tasks bid on, and the count rises by the number of them not recorded before |
| BidContext.RepeatedBidCountsOnce | src/contexts/BidContext.jsx:84-88 | any number of bids on one task raise the count at most once and equal a single bid |
| BidContext.DuplicateMessageRefreshes | src/contexts/BidContext.jsx:91-93 | an error whose message contains "already placed a bid", from the server or the network, triggers the refresh |
| BidContext.BareConflictDoesNotRefresh | src/contexts/BidContext.jsx:71-93 | a 409 without a server message is rethrown as "Failed to place bid", which does not trigger the refresh |
| BidContext.BidProvider.constructor | src/contexts/BidContext.jsx:16-17 | the cache starts as no ids and count 0, with `loadingBids` true |
| BidContext.BidProvider.HasBid | src/contexts/BidContext.jsx:98-100 | a task has a bid iff its id is in the cached set; `WithBidEffect`, `AddBid` and `HandlePlaceBid` give its value after a bid |
| BidContext.BidProvider.TotalBidOpportunities | src/contexts/BidContext.jsx:102 | the banner's number is the cached count, as the server reported it or as inserts raised it |
| BidContext.BidProvider.FetchUserBidSummary | src/contexts/BidContext.jsx:19-43 | no user id resets to empty without a request; otherwise loading toggles and a success replaces the cache wholesale while any failure resets it to empty; `loadingBids` ends false on every path |
| BidContext.BidProvider.OnUserChanged | src/contexts/BidContext.jsx:45-52 | a signed-out user, or one without a uid, leaves an empty cache; otherwise the cache is the fetched summary |
| BidContext.BidProvider.RefreshBids | src/contexts/BidContext.jsx:105-109 | does nothing without a signed-in user; otherwise it is a summary fetch for that user |
| BidContext.BidProvider.AddBid | src/contexts/BidContext.jsx:54-96 | without a user it fails and leaves the cache alone; it sends the task, the uid, the email and the name ("Anonymous Bidder" by default); success inserts the task; a 409 inserts it and still fails; other failures keep the cache; a duplicate message reloads the summary instead; `loadingBids` is untouched on every path except that reload, which ends it false |
| Signup.SignupCheckMeaning | src/pages/Signup.jsx:19-35 | the input is accepted iff the password has six characters, an upper-case and a lower-case letter, and the photo address is empty or starts with "http"; a rejection names the first rule broken |
| Signup.SignupCheckExamples | src/pages/Signup.jsx:19-35 | sample inputs: a six-letter mixed-case password passes, a missing capital or a short password fail first on that rule, and only a non-"http" photo is refused |
| Signup.SignupErrorMessage | src/pages/Signup.jsx:49-54 | "email already in use" gets its fixed text, any other error its own message when present, and else the default; the text is never empty |
| Signup.SignupPage.constructor | src/pages/Signup.jsx:7-11 | the four fields start empty and the page is not submitting |
| Signup.SignupPage.HandleSignup | src/pages/Signup.jsx:16-63 | the provider is called iff every check passes, and then with the typed email and password and a profile update carrying the typed display name only; a failed check shows its text and leaves `isSubmitting` and the session's loading flag untouched; otherwise both flags are set then cleared, success goes home and failure shows the mapped message |
| Signup.SignupPage.HandleGoogleLogin | src/pages/Signup.jsx:65-86 | `isSubmitting` and the session's loading flag are set then cleared; success goes home; failure shows the error's message or the default |
| Signup.SignupIgnoresPhoto | src/contexts/AuthContext.jsx:45-51 | a sign-up creates one account with the given credentials and sends it at most one profile update, with the display name and no photo key, whatever the form's photo field holds |
| Tasks.ApplyUpdateFields | src/components/UpdateTaskModal.jsx:69 | an edit replaces the five edited fields and keeps the id, owner, owner's email and name, status and creation time |
| Tasks.ApplyUpdateLastWins | src/components/UpdateTaskModal.jsx:69 | of two edits the later wins, and an edit made of the task's own values changes nothing |
| Tasks.DatePart | src/pages/UpdateTask.jsx:62 | the date part is a 'T'-free prefix of the text, followed by a 'T' whenever it stops short |
| Tasks.DatePartUnique | src/pages/UpdateTask.jsx:62 | for a 'T'-free date, cutting "date T rest" gives the date back, and cutting the date alone changes nothing |
| Tasks.DatePartIdempotent | src/pages/UpdateTask.jsx:62 | cutting twice is cutting once |
| TaskForm.CheckTaskMeaning | src/pages/AddTask.jsx:55-85 | a form is accepted iff all five fields are filled, the budget parses to a positive number and the deadline is not before today; the payload is the fields as typed with the parsed budget; a rejection names the first rule broken |
| TaskForm.DeadlineTodayAccepted | src/pages/AddTask.jsx:76-77 | a deadline equal to today is never rejected as past |
| TaskForm.IsoDateOrder | src/pages/AddTask.jsx:76-77 | comparing two `YYYY-MM-DD` texts as strings compares the dates by year, then month, then day |
| TaskForm.PrefillResubmit | src/pages/UpdateTask.jsx:57-63 | for a task with a whole positive budget and a deadline not before today, resubmitting a prefilled form unchanged sends the task's own values, and the edit then changes only the deadline's cut |
| AddTask.PostedRecordMeaning | src/pages/AddTask.jsx:88-98 | the posted record has the fields as typed, a positive budget, a deadline not before today, the user's uid and email, the user's name or "Anonymous User", and status "open" |
| AddTask.AddTaskRedirect | src/pages/AddTask.jsx:32-38 | a redirect to login, returning to the posting page, happens iff the session has loaded and nobody is signed in |
| AddTask.AddTaskPage.constructor | src/pages/AddTask.jsx:10-15 | the five fields start empty and the page is not submitting |
| AddTask.AddTaskPage.HandleSubmit | src/pages/AddTask.jsx:40-144 | `isSubmitting` is set then cleared on every path; no user gives the authentication notice and a redirect to login; a failed check shows its text and sends nothing; a checked form posts its record; success clears the fields and goes to the user's tasks; failure keeps the fields and shows the thrown message |
| UpdateTask.UpdateTaskPage.constructor | src/pages/UpdateTask.jsx:11-20 | empty fields, no task data, no error, loading data and not submitting |
| UpdateTask.UpdateTaskPage.LoadEffect | src/pages/UpdateTask.jsx:28-85 | waits for the session; redirects a signed-out visitor to login; a missing id gives "Task ID is missing." without a request; a task owned by someone else fills nothing and navigates away with the access notice; an owned task fills the form from it; a failure keeps the form and shows the message; loading ends false |
| UpdateTask.UpdateTaskPage.HandleSubmit | src/pages/UpdateTask.jsx:87-145 | `isSubmitting` is set then cleared; a failed check sends nothing; a checked form sends exactly the five edited fields; success and failure each show their notice |
| UpdateTask.UpdateTaskPage.View | src/pages/UpdateTask.jsx:147-157 | spinner while loading data or the session; otherwise the error when set; otherwise "not found" iff no task was loaded; otherwise the form |
| UpdateTask.EditKeepsOwnership | src/pages/UpdateTask.jsx:109-115 | an edit never changes the owner, so the ownership check still passes afterwards |
| UpdateTaskModal.UpdateTaskDialog.constructor | src/components/UpdateTaskModal.jsx:5-10 | the five fields start empty and the dialog is not submitting |
| UpdateTaskModal.UpdateTaskDialog.PrefillEffect | src/components/UpdateTaskModal.jsx:18-26 | a given task fills the five fields from it; no task leaves them as they were |
| UpdateTaskModal.UpdateTaskDialog.HandleSubmit | src/components/UpdateTaskModal.jsx:28-77 | `isSubmitting` is set then cleared; a failed check sends nothing; a checked form sends its payload; the parent receives the merged task and then the close only after an ok response; a failed response reports the fixed "Failed to update task" |
| UpdateTaskModal.UpdateTaskDialog.Rendered | src/components/UpdateTaskModal.jsx:79 | a closed dialog renders nothing, an open one its fields |
| UpdateTaskModal.UpdatedTaskKeepsIdentity | src/components/UpdateTaskModal.jsx:50-69 | the task handed to the parent keeps its id and owner and carries the typed title, the typed deadline and a positive budget |
| EditProfileModal.EditProfileDialog.constructor | src/components/EditProfileModal.jsx:7-9 | the fields start empty and the dialog is not submitting |
| EditProfileModal.EditProfileDialog.PrefillEffect | src/components/EditProfileModal.jsx:11-16 | a signed-in user fills the fields, a missing value becoming the empty text |
| EditProfileModal.EditProfileDialog.HandleSubmit | src/components/EditProfileModal.jsx:18-49 | a blank name is refused before any update; otherwise the untrimmed name and photo are sent; without a signed-in account the session is untouched; with one, the session's loading flag is set then cleared and success merges the sent fields into its user; success calls the optional parent callback and then the close, failure neither; `isSubmitting` ends false |
| EditProfileModal.EditProfileDialog.Rendered | src/components/EditProfileModal.jsx:51 | a closed dialog renders nothing, an open one its two fields |
| EditProfileModal.SubmitsUntrimmedName | src/components/EditProfileModal.jsx:22-30 | a name is refused exactly when it is all white space, and the name sent is the one typed, not its trimmed form |
| MyPostedTasks.ReplaceByIdMeaning | src/pages/MyPostedTasks.jsx:57-64 | an edit keeps the length, order and ids of the list, puts the edited task wherever its id occurs and keeps every other entry; repeating it changes nothing |
| MyPostedTasks.ReplaceAbsentId | src/pages/MyPostedTasks.jsx:57-62 | an edit of a task that is not listed leaves the list as it was |
| MyPostedTasks.DeleteByIdConcat | src/pages/MyPostedTasks.jsx:86 | deleting from a joined list deletes from each part, so the kept entries stay in order |
| MyPostedTasks.DeleteByIdMeaning | src/pages/MyPostedTasks.jsx:86 | a delete removes every entry with the id and keeps every other entry as often as before |
| MyPostedTasks.DeleteByIdStable | src/pages/MyPostedTasks.jsx:86 | deleting an absent id changes nothing, and deleting twice is deleting once |
| MyPostedTasks.MyTasksPage.constructor | src/pages/MyPostedTasks.jsx:11-15 | no tasks, loading, no error, the dialog closed with nothing selected |
| MyPostedTasks.MyTasksPage.LoadEffect | src/pages/MyPostedTasks.jsx:17-45 | waits for the session and redirects a signed-out visitor; otherwise loading toggles, success stores the reply sorted newest first as a permutation of it, and failure keeps the list and stores the message |
| MyPostedTasks.MyTasksPage.OpenUpdateModal | src/pages/MyPostedTasks.jsx:47-50 | the task is selected and the dialog open |
| MyPostedTasks.MyTasksPage.CloseUpdateModal | src/pages/MyPostedTasks.jsx:52-55 | nothing is selected and the dialog closed |
| MyPostedTasks.MyTasksPage.HandleTaskUpdated | src/pages/MyPostedTasks.jsx:57-64 | the list is the replace-by-id of the edited task, and the dialog is closed with nothing selected |
| MyPostedTasks.MyTasksPage.HandleDelete | src/pages/MyPostedTasks.jsx:66-93 | a cancelled delete changes nothing; a confirmed and accepted one removes the id and confirms; a refused or failed one keeps the list and shows the error |
| MyPostedTasks.MyTasksPage.View | src/pages/MyPostedTasks.jsx:95-110 | spinner while either flag loads, otherwise the error when set, otherwise the list; there is no "not found" screen |
| Home.SlideStepsWrap | src/pages/Home.jsx:55-61 | both steps stay within the three slides, moving by one modulo three, with next wrapping from the last slide to 0 and previous from 0 to the last |
| Home.SlideStepsInverse | src/pages/Home.jsx:55-61 | next and previous undo each other, and three steps forward return to the start |
| Home.MillisCalibration | src/pages/Home.jsx:50 | the date model puts 1970-01-01 at 0 ms, one day at 86400000 ms, and 2000-03-01 at its known epoch value |
| Home.DeadlineKeys | src/pages/Home.jsx:33-40 | the eight built-in deadlines in milliseconds since the epoch |
| Home.ByDeadlinePermutes | src/pages/Home.jsx:32-41 | the deadline order is a rearrangement of the built-in list |
| Home.ByDeadlineIncreasing | src/pages/Home.jsx:49-50 | the deadlines strictly increase along that order |
| Home.OnlyDeadlineOrder | src/pages/Home.jsx:47-53 | every sorted rearrangement of the built-in list is that order, so the first six are tasks 1, 7, 4, 5, 2 and 6 |
| Home.CardExcerptTruncates | src/pages/Home.jsx:125 | a description of at most 100 characters is shown whole, and a longer one as 103 characters starting with its first 100 |
| Home.HomePage.constructor | src/pages/Home.jsx:44-45 | slide 0 and no featured tasks |
| Home.HomePage.Next | src/pages/Home.jsx:55-57 | the visible slide moves to the next one and stays a valid slide |
| Home.HomePage.Prev | src/pages/Home.jsx:59-61 | the visible slide moves to the previous one and stays a valid slide |
| Home.HomePage.SelectSlide | src/pages/Home.jsx:105 | dot i shows slide i |
| Home.HomePage.LoadFeatured | src/pages/Home.jsx:47-53 | the featured list is six tasks from the built-in list, in deadline order, namely tasks 1, 7, 4, 5, 2 and 6 |
| Sorting.SortByKey | src/pages/MyPostedTasks.jsx:34 | sorting in place leaves the array in key order and a permutation of what it held |
| Sorting.SortedCopy | src/pages/BrowseTask.jsx:22 | the sorted list is in key order, has the same length and is a permutation of the input |
| Sorting.FirstByKey | src/pages/Home.jsx:49-51 | the slice is the first min(n, length) elements of a sorted permutation of the input, in key order and drawn from the input |
| Sorting.SortedHeadLeast | src/pages/BrowseTask.jsx:22 | the first element of a sorted list has the least key of all |
| Sorting.SortedUnique | src/pages/Home.jsx:49-51 | when no two elements share a key, there is only one sorted arrangement of the same elements |
| Sorting.SortedPrefixLeast | src/pages/Home.jsx:49-51 | nothing left out of the first m of a sorted list has a smaller key than one kept |
| JsText.StrLessIrreflexive | src/pages/AddTask.jsx:77 | no text is before itself |
| JsText.StrLessTransitive | src/pages/AddTask.jsx:77 | string order is transitive |
| JsText.StrLessTrichotomy | src/pages/AddTask.jsx:77 | of two texts exactly one is before the other, or they are equal |
| JsText.StrLessConcat | src/pages/AddTask.jsx:77 | texts starting with equally long parts compare by those parts first and then by the rest |
| JsText.Padded | src/pages/AddTask.jsx:76 | a zero-padded number has exactly the width asked for, all digits |
| JsText.PaddedOrder | src/pages/AddTask.jsx:76-77 | for numbers that fit the width, comparing the padded texts compares the numbers |
| JsText.TrimStart | src/components/EditProfileModal.jsx:22 | the result is a suffix that starts with a non-space, and only white space was removed |
| JsText.TrimEnd | src/components/EditProfileModal.jsx:22 | the result is a prefix that ends with a non-space, and only white space was removed |
| JsText.TrimEmptyIffBlank | src/components/EditProfileModal.jsx:22 | the trimmed text is empty iff the text is all white space |
| JsText.IncludesNoLonger | src/contexts/BidContext.jsx:91 | no text includes a longer one |
| JsText.IncludesInfix | src/contexts/BidContext.jsx:91 | a text includes every part it is built around |
| JsText.Substring | src/pages/BrowseTask.jsx:74 | within bounds, `substring` is the slice between its two indices in either order, and never longer than the text |
| JsText.SubstringClamps | src/pages/BrowseTask.jsx:74 | the two indices may be swapped, a negative one counts as 0 and one past the end as the length |
| JsText.Truncate | src/pages/BrowseTask.jsx:74 | a short text is kept; a long one becomes its first `limit` characters and "..." |
| JsText.TruncateIdempotent | src/pages/BrowseTask.jsx:74 | truncating an excerpt again changes nothing |
| JsText.TruncateShape | src/pages/BrowseTask.jsx:74 | an excerpt is at most three characters longer than the limit and starts with the text's first part |
| JsText.NatText | src/pages/UpdateTask.jsx:63 | the text of a number is a non-empty run of digits |
| JsText.FractionDigits | src/pages/UpdateTask.jsx:63 | at most the requested number of fraction digits is written |
| JsText.LeadingDigits | src/pages/AddTask.jsx:65 | the count of leading digits stops exactly at the first non-digit |
| JsText.NatTextValue | src/pages/UpdateTask.jsx:63 | the digits written for a number read back as that number |
| JsText.ParseNatText | src/pages/AddTask.jsx:65 | the decimal reader reads back the text of any natural number |
| JsText.NumberTextWhole | src/pages/UpdateTask.jsx:63 | `toString` of a whole number is its integer text |
| JsText.ParseIntText | src/pages/AddTask.jsx:65 | `parseFloat` reads back the text of any integer |
| JsText.ParseNumberText | src/pages/UpdateTask.jsx:63 | `parseFloat` of `toString` of a whole number gives the number back, so a prefilled whole budget returns unchanged |
| TaskDetail.BidButtonFor | src/pages/TaskDetail.jsx:163-175 | no button for a signed-out visitor or the owner; otherwise "Bid Placed" iff the task is bid on and "Place Bid" (with the placing flag) iff not |
| TaskDetail.BannerNoun | src/pages/TaskDetail.jsx:119 | "opportunity" iff the count is 1, "opportunities" iff not |
| TaskDetail.Banner | src/pages/TaskDetail.jsx:116-120 | the banner is shown iff someone is signed in, with the count and its noun |
| TaskDetail.TaskDetailPage.constructor | src/pages/TaskDetail.jsx:12-15 | no task, loading, no error and not placing a bid |
| TaskDetail.TaskDetailPage.LoadEffect | src/pages/TaskDetail.jsx:17-50 | the task is requested iff the session has loaded, someone is signed in and an id is given; a signed-out visitor is sent to login returning to the task; a missing id gives "Task ID is missing."; success stores the task and failure the message; loading ends false |
| TaskDetail.TaskDetailPage.RefreshEffect | src/pages/TaskDetail.jsx:52-56 | the bid cache is reloaded iff a user with a uid is present |
| TaskDetail.TaskDetailPage.HandlePlaceBid | src/pages/TaskDetail.jsx:58-83 | without a user nothing is sent and login is asked for, returning to the task; otherwise `isPlacingBid` is set then cleared, success records the bid and confirms it, failure shows the error or the fallback; a 409 records the bid, other failures keep the cache, and a duplicate message replaces it by the reloaded summary; the bid spinner flag is left as it was except after that reload, which ends it false |
| TaskDetail.TaskDetailPage.View | src/pages/TaskDetail.jsx:85-109 | spinner iff the task, the session or the bid cache is loading; the card iff none is, there is no error and the task is loaded |
| TaskDetail.RecordedBidDisablesButton | src/pages/TaskDetail.jsx:111-112 | once a bid on the task is recorded, a visitor who did not post it sees "Bid Placed" whatever else the cache holds |
| MyBids.StatusBadge | src/pages/MyBids.jsx:43-53 | "accepted" gives Accepted, "rejected" Rejected, and every other value, missing included, Pending |
| MyBids.StatusBadgeDefaults | src/pages/MyBids.jsx:43-53 | a missing status, "pending", other letter case and the empty text all show Pending |
| MyBids.MyBidsPage.constructor | src/pages/MyBids.jsx:9-11 | no bids, loading, no error |
| MyBids.MyBidsPage.LoadEffect | src/pages/MyBids.jsx:13-41 | the bids are requested iff the session has loaded and someone is signed in, and a signed-out visitor is redirected; success stores the reply newest first as a permutation of it; a failed response stores "Failed to fetch your bids." and a network failure its message; loading ends false |
| MyBids.MyBidsPage.View | src/pages/MyBids.jsx:55-72 | spinner while either flag loads, otherwise the error when set, otherwise the list, marked empty iff there are no bids |
| MyBids.NewestBidListedFirst | src/pages/MyBids.jsx:30 | after a load no listed bid was placed later than the first one |
| BrowseTask.ExcerptShape | src/pages/BrowseTask.jsx:74 | a description of at most 120 characters is shown whole; a longer one as 123 characters, its first 120 and "..." |
| BrowseTask.PosterName | src/pages/BrowseTask.jsx:83 | the poster's name when truthy, "Anonymous" otherwise, never empty |
| BrowseTask.BrowseTaskPage.constructor | src/pages/BrowseTask.jsx:6-8 | no tasks, loading, no error |
| BrowseTask.BrowseTaskPage.LoadEffect | src/pages/BrowseTask.jsx:10-38 | loading toggles; success stores the reply newest first as a permutation of it; failure keeps the list, stores the message and shows it (or the fallback) in a dialog |
| BrowseTask.BrowseTaskPage.View | src/pages/BrowseTask.jsx:40-58 | spinner iff loading, the error iff set after loading, otherwise the list |
| BrowseTask.NewestTaskListedFirst | src/pages/BrowseTask.jsx:22 | after a load no listed task was created later than the first card's |
| ErrorPage.DescribeCases | src/pages/ErrorPage.jsx:8-19 | no error gives the defaults; a 404 gives the 404 texts whatever else it carries; otherwise the status text wins over the message, with a heading naming the status when there is one; neither text keeps the defaults |
| ErrorPage.DescribeShowsText | src/pages/ErrorPage.jsx:8-19 | both texts are never empty, and the heading is the 404 heading exactly for a 404 |
| ErrorPage.Details | src/pages/ErrorPage.jsx:39-42 | the details line is shown iff the support note is and the error has data, and it shows that data |
| ErrorPage.SupportNoteIffNotNotFound | src/pages/ErrorPage.jsx:39 | the support note is shown iff there is an error and the page is not the 404 page |
| Header.VisibleItemsMeaning | src/components/Header.jsx:37-38 | the menu keeps exactly the items open to everyone or, for a signed-in user, those requiring sign-in, and adds none |
| Header.VisibleItemsConcat | src/components/Header.jsx:37-38 | filtering keeps the items in their declared order |
| Header.SignedInSeesAll | src/components/Header.jsx:37-38 | a signed-in user sees every item in order |
| Header.MenuByAuth | src/components/Header.jsx:22-38 | signed out the menu is Home and Browse Tasks; signed in it is all four items |
| Header.Render | src/components/Header.jsx:54-118 | a placeholder iff the session loads; otherwise the mobile menu is shown iff open and lists what the desktop menu lists, the filtered items, and an account menu appears iff someone is signed in |
| Header.HeaderBar.constructor | src/components/Header.jsx:8 | the menu starts closed |
| Header.HeaderBar.Toggle | src/components/Header.jsx:78 | the hamburger button flips the menu |
| Header.HeaderBar.CloseMenu | src/components/Header.jsx:20 | a menu item click closes the menu |
| Header.HeaderBar.HandleLogout | src/components/Header.jsx:10-18 | the session's loading flag toggles and its user is left for the notification; a successful sign-out goes home and closes the menu, a failed one leaves the menu as it was |

## Where the code differs from what one might expect

The model follows the code in each case:

- One might expect a sign-up to publish the new session at once and a
  logout to clear it. In src/contexts/AuthContext.jsx:45-98,
  none of the four operations assigns `user`; only the provider's
  notification and `updateUserProfileData` do.
- One might expect `count == |taskIds|` to be an invariant.
  After a refresh, `count` is whatever number the server reports
  (src/contexts/BidContext.jsx:35). Only inserts keep the gap between the
  two (`WithBidKeepsGap`).
- One might expect a sign-up to set both the display name and the
  photo. src/pages/Signup.jsx passes the photo address, but
  src/contexts/AuthContext.jsx:45-51 takes no such parameter and applies
  the display name only.
- One might expect bids never to shrink the cache. A failed bid
  whose message mentions a duplicate reloads the summary
  (src/contexts/BidContext.jsx:91-93), and a reload may hold fewer ids.

## Left out

- Firebase and HTTP: every identity-provider call and every `fetch` is
  replaced by its outcome, passed in as a parameter. JSON parsing is
  folded into `Reply`. On the pages that read the error body of a failed
  response (src/pages/AddTask.jsx, src/pages/UpdateTask.jsx,
  src/pages/TaskDetail.jsx, src/pages/BrowseTask.jsx and
  src/contexts/BidContext.jsx), a body that cannot be parsed is a
  `NetworkError`. src/pages/MyBids.jsx, src/pages/MyPostedTasks.jsx and
  src/components/UpdateTaskModal.jsx never read that body, and any
  response that is not ok gives their fixed text.
- AuthContext.MergeAgreesWithProvider: how the provider stores a
  profile update (for instance an empty field kept as `null`) is not
  modelled. The lemma states exactly when the merge agrees with the
  account the provider reports, whatever that account is.
- Concurrency: every effect and handler runs to completion in one step.
  React's batched state updates, effects re-running on changed
  dependencies, and interleaved requests are not modelled.
- BidContext.BidProvider.AddBid: the 409 branch checks a captured
  snapshot and then re-checks `prev` (src/contexts/BidContext.jsx:74-77).
  Run sequentially these are one check.
- BidContext.BidProvider.AddBid: the refresh it starts is not awaited
  (src/contexts/BidContext.jsx:92). The model completes it before
  `addBid` returns.
- Rendering: SweetAlert dialogs are `Notice` values with an icon, a
  title and a text. Timers, button colours and the JSX markup are not
  modelled. Navigations are `Navigation` values, not history changes.
- `console.error` logging.
- The carousel's `setInterval` autoplay (src/pages/Home.jsx:64-67). Each
  tick would be a call of `HomePage.Next`. The timer and its cleanup are
  left out.
- Slide titles, descriptions and links, and every display-only text:
  labels, icons, the "N/A" defaults of the detail card.
- `toLocaleDateString` and `toLocaleString`.
- Home.DeadlineKey: `new Date(...)` is modelled for the built-in
  deadlines only, as UTC instants in the ISO form they are written in.
  Other date formats, time zones and invalid dates are not modelled.
- Server timestamps (`createdAt`, `bidDate`) are the integer
  milliseconds `new Date(...)` gives, without modelling the parse.
- Tasks.DatePart: works on the stored deadline text. The
  `new Date(...).toISOString()` normalisation before the cut is not
  modelled.
- "Today" is a `YYYY-MM-DD` text passed in; the clock is not modelled.
- JsText.ParseFloat: reads a sign, digits and an optional fraction.
  Exponents, "Infinity" and the rounding to a 64-bit double are not
  modelled, and budgets are exact reals.
- JsText.NumberText: writes at most 20 fraction digits. The
  shortest-round-trip digits and the exponent form for very large or
  very small numbers are not modelled.
- Strings are sequences of Unicode characters. `length`, `substring` and
  `<` count UTF-16 code units in JavaScript, and the two differ only
  outside the Basic Multilingual Plane.
- Sorting.SortByKey, Sorting.SortedCopy and Sorting.FirstByKey: the
  in-place sort is an insertion sort proved sorted and a permutation, and
  the copy and the slice are built on it. The stability of `Array.prototype.sort` is
  not stated, since no page relies on the order of equal keys.
- src/hooks/useDocumentTitle.js: it only sets and restores the page
  title.
- src/components/Footer.jsx, src/pages/Contact.jsx,
  src/pages/AboutUs.jsx, src/pages/Root.jsx, src/main.jsx,
  src/routes/routes.jsx and src/pages/Dashboard.jsx: static layout and
  provider wiring.
- src/pages/AllTasksTable.jsx and src/pages/DashboardOverview.jsx: a
  fetch and a render. Their one rule, the newest-first sort, is the one
  `Sorting.SortedCopy` states.
