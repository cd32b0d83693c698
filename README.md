# ClubWise client — a Dafny model

ClubWise is a React client for a club-management backend. Members sign up, log in, browse
clubs, and join or leave them. Administrators create, edit and delete clubs from a dashboard.
This project models the client's logic:

- the HTTP helper and the endpoint registry;
- the notification vocabulary;
- the auth and club services;
- the form validators;
- the pages that gate, fetch, submit and guard against double clicks;
- the navigation bar.

It proves what each one promises.

The browser is one object, `Browser.Env`, with two fields:

- `storage`: the `localStorage` keys;
- `effects`: one ordered log of everything observable, namely:
  - toasts shown and dismissed;
  - navigations, immediate and deferred;
  - requests sent;
  - storage writes and removals.

Each page is a class whose fields are its React state. Its handlers are methods that change
those fields and append to the log. The transport is not executed. Each awaited request takes
its outcome as an input, `Responded(response)` or `Failed(error)`. `ApiConnector.Settle` turns
that input into how the helper's promise settles.

Every service operation and page handler is proved against a function of its inputs:

- `SignupEffects`, `LoginEffects` and `LoginStorage`;
- `OperationEffects`;
- `ListEffects`, `DetailEffects`, `FetchEffects` and `DeleteEffects`;
- the gates and validators.

Lemmas then state what those functions promise, such as:

- order of writes;
- which toasts appear;
- when navigation happens;
- that the first failing rule is the one reported.

JavaScript values are modelled generically by `JsValue.Value`. So truthiness, `||`, optional
chaining, `===`, template conversion, default parameters and `trim` behave as the client relies
on them.

The modules follow the source:

| module | file |
|---|---|
| `JsValue` | JavaScript operators |
| `Http` | the request and its outcome |
| `Browser` | storage and the effect log |
| `ApiConnector` | `src/services/apiConnector.js` |
| `Endpoints` | `src/services/apis.js` |
| `Toasts` | `src/utils/toastMessages.js` |
| `AuthApi` | `src/services/operations/authAPI.js` |
| `ClubApi` | `src/services/operations/clubAPI.js` |
| `Validation` | the validators of the four form pages |
| `Session` | the mount-time gates |
| `ClubView` | membership, colours, gradients and statistics |
| `ClubForm` | the club payload |
| `LoginPage` | `src/pages/Login.jsx` |
| `SignupPage` | `src/pages/Signup.jsx` |
| `CreateClubPage` | `src/pages/admin/CreateClub.jsx` |
| `EditClubPage` | `src/pages/admin/EditClub.jsx` |
| `ClubsPage` | `src/pages/Clubs.jsx` |
| `ClubDetailsPage` | `src/pages/ClubDetails.jsx` |
| `AdminDashboardPage` | `src/pages/admin/AdminDashboard.jsx` |
| `NavbarComponent` | `src/components/Navbar.jsx` |

Three behaviours of the code are easy to miss, and the model keeps them:

- **Backend messages are not shown.** The club operations never show a backend message
  such as "Unauthorized": `apiConnector` throws the response body itself
  (src/services/apiConnector.js:21), and the operations read `error.response?.data?.message`
  from that body (src/services/operations/clubAPI.js:28), which has no `response` field. So
  a failure shows the operation's fallback text (`ClubApi.BackendMessageNotShown`). `signup`
  and `login` read the message the same way (src/services/operations/authAPI.js:33 and 67).
- **Second toasts.** The club list toasts a second time after a failed join or leave
  (src/pages/Clubs.jsx:58-61 and 78-81, `ClubsPage.JoinFailureToastTwice`). The dashboard
  toasts a second time after any delete, successful or not
  (src/pages/admin/AdminDashboard.jsx:31-36, `AdminDashboardPage.DeleteSuccessToasts` and
  `AdminDashboardPage.DeleteFailureToasts`).
- **Login order.** `login` shows its success toast before it writes the token and the user
  to storage (src/services/operations/authAPI.js:51-57), and it never dismisses its loading
  toast (src/services/operations/authAPI.js:39).

## Model

| member | source | states |
|---|---|---|
| ApiConnector.MergeHeaders | src/services/apiConnector.js:10-13 | the caller's headers win key by key over the JSON content type, which is present whenever the caller names none |
| ApiConnector.BuildRequest | src/services/apiConnector.js:4-16 | method and URL are passed through and credentials are always included; body and params default to `{}` only when omitted, and an explicit null is forwarded |
| ApiConnector.Settle | src/services/apiConnector.js:18-21 | success yields `response.data`; failure throws the error body when truthy, else the raw error, so the thrown value is always truthy |
| ApiConnector.CaughtMessage | src/services/operations/clubAPI.js:28 | `error.response?.data?.message` when truthy, else the fallback text |
| ApiConnector.BackendMessageLost | src/services/apiConnector.js:21 | the message an operation shows is looked up one level below the thrown body; a body without its own `response` field always gives the fallback |
| ApiConnector.UnauthorizedShowsFallback | src/services/apiConnector.js:21 | a 401 with body `{message: "Unauthorized"}` is thrown as that body and shown with the fallback text |
| ApiConnector.Call | src/services/apiConnector.js:4-23 | sends exactly one request built from the arguments, leaves storage alone, and settles as `Settle` says |
| Endpoints.GetClubByIdApi | src/services/apis.js:12 | the URL starts with the base URL and ends with the club id |
| Endpoints.GetClubMembersApi | src/services/apis.js:14 | the URL starts with the base URL and ends with the club id |
| Endpoints.JoinClubApi | src/services/apis.js:15 | the URL starts with the base URL and ends with the club id |
| Endpoints.LeaveClubApi | src/services/apis.js:16 | the URL starts with the base URL and ends with the club id |
| Endpoints.UpdateClubApi | src/services/apis.js:17 | the URL starts with the base URL and ends with the club id |
| Endpoints.DeleteClubApi | src/services/apis.js:18 | the delete URL is the by-id URL for every id |
| Endpoints.PrefixCancels | src/services/apis.js:12-18 | URLs that share a prefix are equal only when the rest is equal |
| Endpoints.AllUrlsStartWithBase | src/services/apis.js:5-18 | every registry entry begins with the base URL |
| Endpoints.BuildersInjective | src/services/apis.js:12-18 | each id-parameterised builder is injective in the club id |
| Endpoints.FixedUrlsDistinct | src/services/apis.js:5-13 | the six fixed URLs are pairwise distinct |
| Endpoints.ByIdShadowsFixedRoutes | src/services/apis.js:10-13 | the by-id template with ids "all", "my-clubs" and "create" produces the three fixed club URLs |
| Toasts.ErrorOr | src/utils/toastMessages.js:6-24 | an error toast showing the message when truthy and the fixed fallback otherwise, never empty |
| Toasts.FetchError | src/utils/toastMessages.js:25 | an error toast reading exactly "Failed to fetch " + type + ". Please try again." |
| Toasts.InvalidInput | src/utils/toastMessages.js:34 | an error toast reading exactly "Please enter a valid " + field |
| Toasts.LoadingToast | src/utils/toastMessages.js:39 | a loading toast with the message, or "Loading..." when none is given |
| Toasts.FetchErrorInjective | src/utils/toastMessages.js:25 | different fetch labels give different toasts |
| Toasts.EmptyMessageGivesDefault | src/utils/toastMessages.js:6-24 | an empty message gives each error helper's default text |
| Toasts.ShortClubNameMessage | src/utils/toastMessages.js:34 | the club-name label yields "Please enter a valid club name (minimum 3 characters)" |
| AuthApi.LandingPath | src/services/operations/authAPI.js:59-64 | the admin dashboard exactly when the role is the string "admin", the club list otherwise |
| AuthApi.SignupRequest | src/services/operations/authAPI.js:16 | a POST of the form to the signup URL with only the default JSON content type |
| AuthApi.LoginRequest | src/services/operations/authAPI.js:41-48 | a POST of the form to the login URL with the JSON content type |
| AuthApi.ProfileRequest | src/services/operations/authAPI.js:92-94 | a GET to the profile URL with empty body and params and no Authorization header |
| AuthApi.Signup | src/services/operations/authAPI.js:13-36 | leaves storage unchanged and appends exactly `SignupEffects` for the settled outcome |
| AuthApi.SignupNavigatesOnlyOnSuccess | src/services/operations/authAPI.js:13-36 | signup writes and removes nothing and never navigates at once; it schedules "/login" after 1000 ms exactly when either success flag is truthy, and otherwise shows the loading toast and one signup error |
| AuthApi.Login | src/services/operations/authAPI.js:38-70 | the new storage is `LoginStorage` and the appended effects are `LoginEffects` for the settled outcome |
| AuthApi.SignIn | src/services/operations/authAPI.js:50-65 | writes the token text, then the user, and appends the success toast, both writes, then the navigation by role or the login error when the user is missing |
| AuthApi.LoginStoresThenNavigates | src/services/operations/authAPI.js:50-64 | after a successful response the storage is the signed-in storage; the token write comes before the user write, and navigation by role comes only after both |
| AuthApi.LoginFailureShowsOneError | src/services/operations/authAPI.js:66-69 | a failed request leaves storage alone, never navigates, and shows exactly one login error after the loading toast |
| AuthApi.LoginUnsuccessfulIsSilent | src/services/operations/authAPI.js:50-65 | a falsy `success` writes nothing, navigates nowhere and shows nothing beyond the loading toast |
| AuthApi.LogoutShape | src/services/operations/authAPI.js:72-90 | whichever step throws, both keys are removed and the last effect is the navigation home; the success toast appears exactly when the toast step itself does not throw, and nothing else happens |
| AuthApi.Logout | src/services/operations/authAPI.js:72-90 | the new storage is the old one without "token" and "user", on every fault |
| AuthApi.GetProfile | src/services/operations/authAPI.js:92-94 | one bare GET and nothing else; storage unchanged; settles as the transport does |
| AuthApi.SignedIn | src/services/operations/authAPI.js:54-57 | the stored token is the response token's text and the stored user is the response user; every other key is kept |
| AuthApi.SignedOut | src/services/operations/authAPI.js:75-76 | both session keys are gone and every other key is kept |
| AuthApi.SignedOutIdempotent | src/services/operations/authAPI.js:72-90 | logging out twice leaves the same storage as once |
| AuthApi.TypeErrorShowsLoginFallback | src/services/operations/authAPI.js:67 | a thrown TypeError carries no response, so login shows its fallback text |
| ClubApi.Bearer | src/services/operations/clubAPI.js:22 | the credential is "Bearer " followed by exactly the caller's token text |
| ClubApi.BearerInjective | src/services/operations/clubAPI.js:22 | different tokens give different credentials |
| ClubApi.BearerWithoutToken | src/services/operations/clubAPI.js:22 | without a token the credential is "Bearer null" |
| ClubApi.Perform | src/services/operations/clubAPI.js:18-164 | appends `OperationEffects`, leaves storage alone, and returns or re-throws exactly what the transport settled with |
| ClubApi.CreateClub | src/services/operations/clubAPI.js:18-32 | the create operation's effects, settling as the transport does |
| ClubApi.GetAllClubs | src/services/operations/clubAPI.js:35-46 | the all-clubs read's effects, settling as the transport does |
| ClubApi.GetMyClubs | src/services/operations/clubAPI.js:49-59 | the my-clubs read's effects, settling as the transport does |
| ClubApi.GetClubMembers | src/services/operations/clubAPI.js:62-72 | the members read's effects, settling as the transport does |
| ClubApi.GetClubById | src/services/operations/clubAPI.js:75-85 | the by-id read's effects, settling as the transport does |
| ClubApi.JoinClub | src/services/operations/clubAPI.js:88-104 | the join operation's effects, settling as the transport does |
| ClubApi.LeaveClub | src/services/operations/clubAPI.js:107-123 | the leave operation's effects, settling as the transport does |
| ClubApi.UpdateClub | src/services/operations/clubAPI.js:126-145 | the update operation's effects, settling as the transport does |
| ClubApi.DeleteClub | src/services/operations/clubAPI.js:148-164 | the delete operation's effects, settling as the transport does |
| ClubApi.RequestHeaders | src/services/operations/clubAPI.js:21-24 | every request carries the caller's Bearer credential and credentials; the content type is multipart exactly for create and update |
| ClubApi.RequestRoutes | src/services/operations/clubAPI.js:21-152 | method, URL and body of each operation: reads are GETs with a null body; join, leave and delete send `{}`; delete uses the by-id URL |
| ClubApi.ReadToasts | src/services/operations/clubAPI.js:35-85 | a read shows nothing on success and exactly its labelled fetch error on failure |
| ClubApi.ChangeToasts | src/services/operations/clubAPI.js:88-104 | a change shows its loading toast and then exactly one success or error toast |
| ClubApi.FetchErrorsDistinct | src/services/operations/clubAPI.js:43-83 | the four reads are told apart by their error toast |
| ClubApi.BackendMessageNotShown | src/services/operations/clubAPI.js:28 | a change failing with backend body `{message}` re-throws that body and shows its fallback text, not the message |
| Validation.ProblemToast | src/utils/toastMessages.js:30-34 | every validation problem is reported with an error toast |
| Validation.FirstFailure | src/pages/Login.jsx:21-35 | none exactly when every rule holds; otherwise the problem of the first failing rule |
| Validation.LoginProblem | src/pages/Login.jsx:21-35 | the first failure of the login rules; none exactly when both fields are given, the email has an `@` and the password is six UTF-16 code units long |
| Validation.SignupProblem | src/pages/Signup.jsx:23-41 | the first failure of the signup rules; none exactly when all three fields are given, the trimmed name is two and the password six UTF-16 code units long, and the email has an `@` |
| Validation.ClubProblem | src/pages/admin/CreateClub.jsx:72-94 | the first failure of the club rules; none exactly when the trimmed name has 3 and the trimmed description 10 UTF-16 code units and a category is given |
| Validation.AstralPasswordAccepted | src/pages/Login.jsx:30 | three emoji are six code units and pass the password rule, while three ordinary characters are refused |
| Validation.SpacePasswordAccepted | src/pages/Login.jsx:30 | six spaces pass the password rule because nothing is trimmed |
| Validation.BlankNameTooShort | src/pages/Signup.jsx:24-31 | a white-space signup name passes "required" and is refused as too short |
| Validation.BlankClubNameMissing | src/pages/admin/CreateClub.jsx:73-76 | a white-space club name is reported as a missing field |
| Validation.AnyCategoryAccepted | src/pages/admin/CreateClub.jsx:89 | any non-empty category passes, listed or not |
| Validation.PaddedClubNameSame | src/pages/admin/CreateClub.jsx:73-80 | padding a club name with spaces does not change the verdict |
| Validation.TrimPadded | src/pages/admin/CreateClub.jsx:107 | trimming removes one surrounding space from an unpadded text |
| JsValue.Trim | src/pages/admin/CreateClub.jsx:73-88 | the result has no surrounding white space and is the slice of the input between its white-space prefix and suffix |
| JsValue.TrimEmptyIffBlank | src/pages/admin/CreateClub.jsx:73 | a trimmed text is empty exactly when the text is all white space |
| JsValue.Utf16Length | src/pages/Login.jsx:30 | `.length` lies between the number of characters and twice it; it equals the number of characters when none lies beyond U+FFFF, and twice it when all do |
| Session.ParsedUser | src/pages/Clubs.jsx:28 | the stored user parses unless it is the text of `undefined` |
| Session.SessionGate | src/pages/Clubs.jsx:19-29 | to the login page exactly when the token is falsy or no user is stored; passes exactly when both are present and the user parses |
| Session.AdminGate | src/pages/admin/CreateClub.jsx:37-52 | to the login page exactly when no user is stored; passes exactly when the stored role is "admin"; throws exactly on a stored null or `undefined` |
| Session.AdminGateIgnoresToken | src/pages/admin/EditClub.jsx:41-58 | the admin gate decides the same with any token or none |
| Session.LandingPageAdmits | src/services/operations/authAPI.js:54-64 | after login, an admin passes the dashboard's admin gate and any user with a non-empty token passes the member gate |
| Session.SignedOutGates | src/services/operations/authAPI.js:75-76 | after logout both gates send the user to the login page |
| Session.AdminPassParses | src/pages/admin/CreateClub.jsx:46-47 | whoever passes the admin gate has a parsable user and passes the member gate whenever a token is stored |
| ClubView.RefersTo | src/pages/Clubs.jsx:89 | an entry refers to an id exactly when the id is primitive and the entry is the id, or an object whose `_id` is the id, or, for an undefined id, any entry without `_id` |
| ClubView.AnyRefersTo | src/pages/Clubs.jsx:88-90 | true exactly when some member entry is the id or an object carrying it |
| ClubView.SomeRefersTo | src/pages/Clubs.jsx:88-90 | true exactly when some entry refers to the id and no entry up to it is null or undefined; false exactly when no entry is null, undefined or referring; a throw otherwise; an answer always agrees with `AnyRefersTo` |
| ClubView.IsUserMember | src/pages/ClubDetails.jsx:80-84 | a member exactly when the member list is an array with an entry referring to the user's id and no null or undefined entry up to it; not a member exactly when there is no member list, or no entry is null, undefined or referring; a throw otherwise, including a member list that is not an array |
| ClubView.IsUserCreator | src/pages/ClubDetails.jsx:86-88 | the creator entry refers to the user's id, by the member test; a user without an id passes exactly when the creator entry carries no id |
| ClubView.MemberByStringId | src/pages/ClubDetails.jsx:80-84 | for a string id, membership is an entry equal to the id or an object whose `_id` is the id, with no null or undefined entry before it |
| ClubView.NullEntryOrder | src/pages/ClubDetails.jsx:81-83 | a null entry after the match leaves the user a member; a null entry before the match throws |
| ClubView.MissingIdMatchesAnonymousEntry | src/pages/Clubs.jsx:87-91 | without a user id, an object entry without `_id` counts as the user |
| ClubView.CreatorIsMemberOfOwnList | src/pages/ClubDetails.jsx:80-88 | the creator test and the membership test use the same comparison: the creator's entry alone makes a member list holding the creator, unless that entry is null or undefined, which throws |
| ClubView.CategoryColor | src/pages/ClubDetails.jsx:90-108 | the colour of a listed category, the grey default otherwise |
| ClubView.OfferedCategoriesColoured | src/pages/admin/CreateClub.jsx:9-24 | each of the 14 offered categories has an entry in the colour table, and the table has no other key |
| ClubView.UnknownCategoryLikeOthers | src/pages/admin/AdminDashboard.jsx:58-76 | an unknown category gets the same grey as "Others" |
| ClubView.ColorByText | src/pages/admin/AdminDashboard.jsx:75 | colours are looked up by the category's text |
| ClubView.GradientClass | src/pages/admin/AdminDashboard.jsx:44-56 | always one of the eight gradients |
| ClubView.GradientsCycle | src/pages/admin/AdminDashboard.jsx:55 | cards eight apart share a gradient, and a card takes the palette entry at its position modulo eight |
| ClubView.MemberCount | src/pages/admin/AdminDashboard.jsx:190 | a club counts members exactly when its member list is a non-empty array or text; an array counts its entries |
| ClubView.TotalMembers | src/pages/admin/AdminDashboard.jsx:126 | no club counts more than the total, which is 0 exactly when every club counts 0 |
| ClubView.ActiveClubs | src/pages/admin/AdminDashboard.jsx:134 | no more active clubs than clubs, and some club has members whenever one is active |
| ClubView.ActiveClubsBounded | src/pages/admin/AdminDashboard.jsx:119-134 | active clubs never outnumber clubs or members |
| ClubView.NoMembersNoActiveClubs | src/pages/admin/AdminDashboard.jsx:126-134 | there are no members exactly when there is no active club |
| ClubView.ActiveClubsCountsNonEmpty | src/pages/admin/AdminDashboard.jsx:134 | active clubs are the number of clubs with a positive member count |
| ClubView.TotalsAppend | src/pages/admin/AdminDashboard.jsx:126 | both totals add up over concatenated lists |
| ClubForm.BuildPayload | src/pages/admin/CreateClub.jsx:106-112 | the successive appends build exactly `ClubPayload` |
| ClubForm.EntryNames | src/pages/admin/CreateClub.jsx:106-112 | one name per entry, in order |
| ClubForm.PayloadFields | src/pages/admin/CreateClub.jsx:106-112 | name, description, category, and an image exactly when a file was chosen; name and description carry no surrounding white space; the category is as typed |
| ClubForm.FieldText | src/pages/admin/EditClub.jsx:76-81 | a text field of the fetched club, or "" when it is falsy |
| LoginPage.Page.constructor | src/pages/Login.jsx:9-13 | empty email and password, not loading |
| LoginPage.Page.HandleChange | src/pages/Login.jsx:17-19 | only the named field changes |
| LoginPage.Page.ValidateForm | src/pages/Login.jsx:21-35 | succeeds exactly when `LoginProblem` is none, else shows that problem's toast |
| LoginPage.Page.HandleSubmit | src/pages/Login.jsx:37-52 | an invalid form shows one toast and changes nothing else; a valid one runs login on the form with loading raised during the call and lowered after it |
| SignupPage.Page.constructor | src/pages/Signup.jsx:9-15 | empty fields and the role "member", not loading |
| SignupPage.Page.HandleChange | src/pages/Signup.jsx:19-21 | only the named field changes |
| SignupPage.Page.ValidateForm | src/pages/Signup.jsx:23-41 | succeeds exactly when `SignupProblem` is none, else shows that problem's toast |
| SignupPage.Page.HandleSubmit | src/pages/Signup.jsx:43-58 | an invalid form never signs up; a valid one runs signup on the form with loading raised and then lowered, and storage unchanged |
| CreateClubPage.Page.constructor | src/pages/admin/CreateClub.jsx:26-33 | empty form, no image, no preview, not loading |
| CreateClubPage.Page.Mount | src/pages/admin/CreateClub.jsx:37-52 | shows what the admin gate decides and nothing else |
| CreateClubPage.Page.HandleInputChange | src/pages/admin/CreateClub.jsx:54-60 | only the named field changes |
| CreateClubPage.Page.HandleImageChange | src/pages/admin/CreateClub.jsx:62-70 | a picked file becomes the image and its URL the preview; no file changes nothing |
| CreateClubPage.Page.ValidateForm | src/pages/admin/CreateClub.jsx:72-94 | succeeds exactly when `ClubProblem` is none, else shows that problem's toast |
| CreateClubPage.Page.HandleSubmit | src/pages/admin/CreateClub.jsx:96-122 | an invalid form never creates; a valid one creates the payload with the stored token and goes to the dashboard only when creation resolves; loading is lowered either way |
| CreateClubPage.Page.Submit | src/pages/admin/CreateClub.jsx:114-121 | the create operation, then the dashboard only on success |
| EditClubPage.FetchFailureToasts | src/pages/admin/EditClub.jsx:82-85 | a failed fetch shows the service's fetch error and then the page's own toast |
| EditClubPage.FetchFoundOrBack | src/pages/admin/EditClub.jsx:67-71 | a found club adds nothing to the read; it goes back to the dashboard exactly when no club was loaded, with "Club not found" when the read itself succeeded |
| EditClubPage.Page.constructor | src/pages/admin/EditClub.jsx:30-39 | empty form and images, fetching |
| EditClubPage.Page.Mount | src/pages/admin/EditClub.jsx:41-58 | a refused gate shows its effects and changes no field; a passed gate fetches the club |
| EditClubPage.Page.FetchClubData | src/pages/admin/EditClub.jsx:60-89 | a loaded club fills the form, current image and preview; otherwise they are kept; fetching ends on every path |
| EditClubPage.Page.HandleInputChange | src/pages/admin/EditClub.jsx:91-97 | only the named field changes |
| EditClubPage.Page.HandleImageChange | src/pages/admin/EditClub.jsx:99-107 | a picked file replaces image and preview; the current image is kept |
| EditClubPage.Page.ValidateForm | src/pages/admin/EditClub.jsx:109-131 | the same rules, order and toasts as the create page |
| EditClubPage.Page.HandleSubmit | src/pages/admin/EditClub.jsx:133-159 | an invalid form never updates; a valid one updates this club with the payload and goes to the dashboard only when the update resolves |
| EditClubPage.Page.Submit | src/pages/admin/EditClub.jsx:151-158 | the update operation, then the dashboard only on success |
| ClubsPage.ListAfter | src/pages/Clubs.jsx:38 | the response's truthy `clubs`, or the empty list; the old list when the read fails |
| ClubsPage.JoinFailureToastTwice | src/pages/Clubs.jsx:58-61 | a failed join shows the same error toast twice, once from the service and once from the page |
| ClubsPage.RefetchOnlyOnSuccess | src/pages/Clubs.jsx:54-57 | the list is read again exactly when the join or leave succeeded |
| ClubsPage.Page.constructor | src/pages/Clubs.jsx:10-14 | an empty list, loading, no user, no club in flight |
| ClubsPage.Page.Mount | src/pages/Clubs.jsx:17-30 | a refused gate toasts and goes to the login page without fetching; a passed gate keeps the stored user and fetches |
| ClubsPage.Page.FetchClubs | src/pages/Clubs.jsx:32-45 | the list becomes `ListAfter`, a failure adds the page's toast, and loading ends on every path |
| ClubsPage.Page.HandleJoinClub | src/pages/Clubs.jsx:47-65 | ignored while a join is in flight; otherwise holds the club id during the call, refetches on success, toasts on failure, and resets to null; the leave flag is untouched |
| ClubsPage.Page.HandleLeaveClub | src/pages/Clubs.jsx:67-85 | the same with its own flag; the join flag is untouched |
| ClubsPage.Page.RunAction | src/pages/Clubs.jsx:51-61 | the call with the stored token, then the refetch or the page's error toast |
| ClubsPage.Page.HandleView | src/pages/Clubs.jsx:190 | navigates to the club's details |
| ClubDetailsPage.ClubAfter | src/pages/ClubDetails.jsx:39 | the response's `club`, or the old club when the read fails |
| ClubDetailsPage.FailedActionStays | src/pages/ClubDetails.jsx:57-60 | a failed join or leave shows only the service's two toasts and never navigates |
| ClubDetailsPage.CreatorWithoutRoleBounced | src/pages/admin/EditClub.jsx:50-55 | a creator whose stored role is not "admin" is sent on to the club list by the edit page |
| ClubDetailsPage.Page.constructor | src/pages/ClubDetails.jsx:13-17 | no club, no user, loading, both flags down |
| ClubDetailsPage.Page.IsMember | src/pages/ClubDetails.jsx:80-84 | the membership test on the page's club and user; before the club is loaded nobody is a member |
| ClubDetailsPage.Page.IsCreator | src/pages/ClubDetails.jsx:86-88 | the creator test on the page's club and user; before the club is loaded, exactly a user without an id passes |
| ClubDetailsPage.Page.Mount | src/pages/ClubDetails.jsx:19-32 | a refused gate goes to the login page without fetching; a passed gate keeps the user and fetches |
| ClubDetailsPage.Page.FetchClubDetails | src/pages/ClubDetails.jsx:34-48 | the club becomes `ClubAfter`; a failure toasts and returns to the list; loading ends on every path |
| ClubDetailsPage.Page.HandleJoinClub | src/pages/ClubDetails.jsx:50-63 | ignored while the flag is up; otherwise the flag is up during the call and down after it, and the club is refetched only on success |
| ClubDetailsPage.Page.HandleLeaveClub | src/pages/ClubDetails.jsx:65-78 | the same with its own flag |
| ClubDetailsPage.Page.RunAction | src/pages/ClubDetails.jsx:54-57 | the call with the stored token, then the refetch on success |
| ClubDetailsPage.Page.HandleEdit | src/pages/ClubDetails.jsx:240 | navigates to the club's edit page |
| AdminDashboardPage.DeleteSuccessToasts | src/pages/admin/AdminDashboard.jsx:31-33 | a successful delete shows the deleted toast twice before the refresh's toasts |
| AdminDashboardPage.DeleteFailureToasts | src/pages/admin/AdminDashboard.jsx:34-36 | a failed delete shows the service's error and then "Failed to delete club", whatever was caught |
| AdminDashboardPage.SuccessfulDeleteSplits | src/pages/admin/AdminDashboard.jsx:27-37 | a successful delete's effects are the call's, the page's toast, then the refresh |
| AdminDashboardPage.DashboardSendsWithoutToken | src/pages/admin/AdminDashboard.jsx:14-17 | with no stored token the dashboard still reads, with the credential "Bearer null" |
| AdminDashboardPage.Page.constructor | src/pages/admin/AdminDashboard.jsx:10-11 | an empty list, loading |
| AdminDashboardPage.Page.Statistics | src/pages/admin/AdminDashboard.jsx:119-134 | active clubs never exceed clubs or members, and there are no members exactly when there are no active clubs |
| AdminDashboardPage.Page.Mount | src/pages/admin/AdminDashboard.jsx:39-41 | fetches with no session or role check |
| AdminDashboardPage.Page.FetchClubs | src/pages/admin/AdminDashboard.jsx:14-25 | the list becomes `ListAfter`, a failure toasts, loading ends on every path |
| AdminDashboardPage.Page.HandleDelete | src/pages/admin/AdminDashboard.jsx:27-37 | deletes with the stored token; toasts and refetches only on success; toasts "Failed to delete club" otherwise |
| AdminDashboardPage.Page.HandleCreate | src/pages/admin/AdminDashboard.jsx:108 | navigates to the create page |
| AdminDashboardPage.Page.HandleEdit | src/pages/admin/AdminDashboard.jsx:224 | navigates to the card's edit page |
| AdminDashboardPage.Page.HandleView | src/pages/admin/AdminDashboard.jsx:236 | navigates to the card's details page |
| NavbarComponent.VisibleLinks | src/components/Navbar.jsx:48-71 | Home always first; Clubs exactly when authenticated; Dashboard exactly when authenticated with the role "admin" |
| NavbarComponent.Area | src/components/Navbar.jsx:76-104 | a greeting exactly when authenticated, naming the user or "User" |
| NavbarComponent.MountedLinksMatchGates | src/components/Navbar.jsx:12-20 | the Clubs link shows exactly when the member gate does not send the user to the login page; the Dashboard link shows only when both gates pass |
| NavbarComponent.SignedOutShowsHomeOnly | src/components/Navbar.jsx:27-31 | after logout only Home shows and the guest links return |
| NavbarComponent.Navbar.constructor | src/components/Navbar.jsx:8-9 | not authenticated, no user |
| NavbarComponent.Navbar.Mount | src/components/Navbar.jsx:12-20 | authenticated exactly when a truthy token and a user are stored; the user is parsed afterwards, and a stored `undefined` throws |
| NavbarComponent.Navbar.HandleLogoClick | src/components/Navbar.jsx:23-25 | navigates home |
| NavbarComponent.Navbar.HandleLogout | src/components/Navbar.jsx:27-31 | logs out through the service, then forgets the session so only Home shows |

## Left out

- The transport. The axios call, cookies and the network are not modelled. Each awaited request takes its outcome as an input, and the failing outcome is always an object, as axios errors are.
- JSON serialisation of the stored user. The stored user is kept as the value itself, so the `JSON.stringify`/`JSON.parse` round trip is taken as the identity. The one parse failure modelled is the text "undefined", written when the login response has no user.
- Asynchrony. Awaited calls are modelled in program order. The model leaves out interleaving between handlers, results arriving after unmount, and the real `setTimeout`. The deferred navigation is an effect of its own.
- `AdminDashboardPage.Page.HandleDelete`: the page does not await the refresh fetch. The model appends its effects at once, after the success toast.
- Toast ids, durations, positions and icons' rendering. Loading toasts of the club service are never dismissed, as in the source.
- `URL.createObjectURL`. Its result is a parameter of `HandleImageChange`.
- `console` output.
- The rendered markup and CSS other than the colour and gradient tables.
- Dates.
- Routing: src/App.jsx is not part of this model. Neither are src/pages/Home.jsx, src/components/Hero.jsx and src/components/Footer.jsx, which hold no logic.
- `ClubView.MemberCount`: a null or undefined entry in the club list makes `club.members` throw (src/pages/admin/AdminDashboard.jsx:126, 134, 190 and 213); here it counts 0, and so `ClubView.TotalMembers` and `ClubView.ActiveClubs` take it for a club without members. A members field that is an object with its own `length` counts 0.
- `AdminDashboardPage.Page.Cards`: a truthy `clubs` value that is not an array would throw at `.reduce`, `.filter` or `.map` (src/pages/admin/AdminDashboard.jsx:126, 134 and 160, src/pages/Clubs.jsx:135); here it is drawn as an empty list. A null or missing `clubs` never reaches the render, since both pages store `clubs || []` (src/pages/Clubs.jsx:38, src/pages/admin/AdminDashboard.jsx:19), and a null `members` never throws, since every use goes through `?.`. The throws of `.some` on a `members` value that is not an array, and on a null or undefined member entry, are modelled (`ClubView.IsUserMember`, `ClubView.SomeRefersTo`).
- `ClubView.IsUserMember`: the club list calls `club.members?.some` without `?.` after `club` (src/pages/Clubs.jsx:88), so a null entry in the club list throws there; the model follows the details page's `club?.members?.some`, where a null club means "not a member".
- `ClubView.CategoryColor`: keys inherited by JavaScript objects, such as "constructor", get the grey default here.
- `JsValue.StrictEq`: `===` on objects and arrays compares identity. The model treats such values as never equal.
- Numbers are integers.
- `AuthApi.Logout`: the steps of the catch block are taken not to throw.
- `ClubForm.FieldText`: a truthy non-string field of a fetched club becomes "" here. The source would keep the value itself in the form.
- The mount effects' dependency arrays. Each mount effect runs once. Re-running on a changed club id is not modelled.
