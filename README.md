# Job board client: session, jobs slice and page handlers

A model, in Dafny, of the decision logic of a job-board single-page client. Almost all of
that client is markup. The logic it holds is a set of small state machines:

- the **jobs slice** of the client store (job list, loading flag, last error) and the
  admin **add-job form** that drives it;
- the **session** kept by the authentication context: the in-memory user plus
  `localStorage` with its `token` and `user` keys. It is written by six sign-in
  operations, by the third-party provider bridge and by logout, and it is read back
  when the page mounts;
- the HTTP client's **`authService`** (`api.js`) and the service layer over it
  (`authService.js`). These write the same storage with rules of their own: the token
  only, a type back-fill, and error classification;
- the **login** and **sign-up** submit handlers, the **navigation bar**'s visibility
  and logout rules, and the **route guard**.

Stateful code is modelled as classes that update fields in place. The jobs store, the
context provider, the shared `LocalStorage` and each page are classes. Each method's
postcondition ties the new state to a pure function of the old state:
`JobsSlice.Reduce`, `AuthContext.SignedIn`, `AuthContext.Restore`,
`AuthContext.LoggedOut` and `Api.StoreToken`. The lemmas are about those functions:

- traces of jobs actions;
- agreement between memory and storage, defined as "a page reload would restore the
  same user";
- the points where the HTTP client's own writes make the two copies diverge. No
  component calls the client's `logout` (the bar calls the context's), so the
  divergence of `SessionCopies.ClientLogoutDiverges` can arise only through that
  unused operation; the client's `login` is the one the login page uses.

Network answers, the third-party provider's flag and profile, and the store's
authentication flag are parameters. Actions of the store's authentication slice are
recorded as events in an effect log (`Ui.Effect`), together with requests and
navigations. Their reducer is not part of this model.

Where the written design and the code disagree, the model follows the code:

- logout leaves the third-party provider's flag alone, so `isAuthenticated` after
  logout equals that flag, not `false` (`AuthContext.LogoutClears`, `NavBar.AfterLogout`);
- the request rule attaches the bearer header only when the stored token is non-empty
  (JavaScript truthiness), not whenever the key exists (`Api.BearerIffToken`);
- sign-up never sends a portal type, and it sends the full name under `name` rather
  than `fullName` (`SignupPage.RegisterBody`);
- a successful sign-in whose token is the empty string writes storage that a reload
  does not restore (`AuthContext.SignInPersists`).

## Model

| member | source | states |
|---|---|---|
| `Users.DecodeEncode` | Frontend/src/context/AuthContext.js:67-69 | the persisted user text reads back as exactly the user that was stored |
| `Users.Decode` | Frontend/src/context/AuthContext.js:25-28 | parsing accepts only texts that are the serialisation of some user |
| `Users.EncodeInjective` | Frontend/src/context/AuthContext.js:68 | two different users are never persisted as the same text |
| `Users.DecodeCanFail` | Frontend/src/context/AuthContext.js:26-29 | a non-empty stored text that is not a serialised user fails to parse, so the mount effect's `JSON.parse` can throw |
| `AuthContext.MountClearsCorruptUser` | Frontend/src/context/AuthContext.js:20-37 | a stored token next to a non-empty unparsable user reaches the error path, which clears both keys and leaves no user |
| `JobsSlice.JobsStore.constructor` | Frontend/src/store/slices/jobsSlice.js:3-7 | the initial state is no jobs, not loading, no error |
| `JobsSlice.JobsStore.CreateJobStart` | Frontend/src/store/slices/jobsSlice.js:13-16 | loading becomes true and the error is cleared; jobs unchanged |
| `JobsSlice.JobsStore.CreateJobSuccess` | Frontend/src/store/slices/jobsSlice.js:17-20 | the job is appended at the end with earlier jobs kept in order; loading false; error untouched |
| `JobsSlice.JobsStore.CreateJobFailure` | Frontend/src/store/slices/jobsSlice.js:21-24 | loading false, error becomes the message, jobs unchanged |
| `JobsSlice.JobsStore.FetchJobsStart` | Frontend/src/store/slices/jobsSlice.js:25-28 | loading becomes true and the error is cleared; jobs unchanged |
| `JobsSlice.JobsStore.FetchJobsSuccess` | Frontend/src/store/slices/jobsSlice.js:29-32 | the list is replaced wholesale; loading false; error untouched |
| `JobsSlice.JobsStore.FetchJobsFailure` | Frontend/src/store/slices/jobsSlice.js:33-36 | loading false, error becomes the message, jobs unchanged |
| `JobsSlice.JobsAppendOnly` | Frontend/src/store/slices/jobsSlice.js:17-20 | over any trace without a list replacement, the list is the old list followed by the created jobs in order |
| `JobsSlice.JobsSinceFetch` | Frontend/src/store/slices/jobsSlice.js:29-32 | after the last list replacement, the list is its payload followed by the jobs created since |
| `JobsSlice.LoadingFollowsLastAction` | Frontend/src/store/slices/jobsSlice.js:13-36 | after any trace, loading holds exactly when the last action was a start |
| `JobsSlice.NoErrorAfterStart` | Frontend/src/store/slices/jobsSlice.js:13-28 | a start not followed by a failure leaves no error |
| `JobsSlice.ErrorAfterFailure` | Frontend/src/store/slices/jobsSlice.js:21-36 | a failure not followed by a start or a failure leaves its message as the error |
| `JobsSlice.SuccessesKeepError` | Frontend/src/store/slices/jobsSlice.js:17-32 | success actions never change the error |
| `AddJobPage.AddJob.constructor` | Frontend/src/pages/admin/AddJob.js:20-26 | the form starts with four empty fields and no error |
| `AddJobPage.FieldFor` | Frontend/src/pages/admin/AddJob.js:32 | a field becomes a number exactly when it is `salary`; otherwise it keeps the raw text |
| `AddJobPage.AddJob.HandleChange` | Frontend/src/pages/admin/AddJob.js:28-34 | only the named field changes |
| `AddJobPage.CreateErrorMessage` | Frontend/src/pages/admin/AddJob.js:55 | the server's `error` text when there is one, else `Failed to create job`; never empty |
| `AddJobPage.SettleAction` | Frontend/src/pages/admin/AddJob.js:45-56 | success dispatches the created job; failure dispatches the failure message |
| `AddJobPage.SubmitSettlesSlice` | Frontend/src/pages/admin/AddJob.js:36-59 | after a submit the slice is not loading; on success it ends with the job and no error; on failure the list is kept and the error is the message |
| `AddJobPage.AddJob.HandleSubmit` | Frontend/src/pages/admin/AddJob.js:36-59 | error cleared and start dispatched before the request; success dispatches and resets all four fields; failure dispatches and shows the message and keeps the form |
| `Api.WithAuthorization` | Frontend/src/services/api.js:14-22 | a request gets `Bearer <token>` in `Authorization` exactly when a non-empty token is stored; other headers kept |
| `Api.BearerIffToken` | Frontend/src/services/api.js:17-20 | starting without the header, a request carries it if and only if a non-empty token is stored |
| `Api.MessageOf` | Frontend/src/services/api.js:73 | the `message` of what login throws: the server body's field, or the transport error's message |
| `Api.FirstWithEmail` | Frontend/src/services/api.js:56 | the index of the first listed user with the e-mail, or none exactly when no user has it |
| `Api.Backfilled` | Frontend/src/services/api.js:52-68 | a user without a type takes the first match's type, defaulting to `employee`; with a type, no match or a failed listing, the user is unchanged; e-mail and name are never changed |
| `Api.BackfillGivesType` | Frontend/src/services/api.js:58-63 | when some listed user matches, the back-filled user always has a non-empty type |
| `Api.StoreToken` | Frontend/src/services/api.js:47-49 | the token key is written only when the response token is non-empty, and nothing else is written |
| `Api.ListingOnlyWhenRequested` | Frontend/src/services/api.js:51-55 | when the answer's user already has a type (or there is no user, or no answer), the listing's answer plays no part in the result |
| `Api.LoginResult` | Frontend/src/services/api.js:43-74 | resolves with the body, back-filling the user, or rejects with the server body or else the transport error |
| `Api.ClassifyRegisterError` | Frontend/src/services/api.js:97-106 | three kinds: the server's body; no response gives the fixed message; otherwise the error's own message |
| `Api.RegisterResult` | Frontend/src/services/api.js:77-108 | resolves with the body or rejects with the classified error |
| `Api.Login` | Frontend/src/services/api.js:43-74 | writes only the token key, never the user key; returns what `LoginResult` says |
| `Api.Register` | Frontend/src/services/api.js:77-108 | writes only the token key, when present; returns what `RegisterResult` says |
| `Api.Logout` | Frontend/src/services/api.js:110-112 | removes only the token key; a stored user stays as it was |
| `AuthService.RegistrationPayload` | Frontend/src/services/authService.js:17-22 | the forwarded object has exactly `fullName`, `email`, `password` and `type`, copied from the input |
| `AuthService.PayloadIgnoresOtherFields` | Frontend/src/services/authService.js:17-24 | inputs that agree on those four properties forward the same object |
| `AuthService.Login` | Frontend/src/services/authService.js:3-11 | returns the underlying result, value or error, unchanged |
| `AuthService.Register` | Frontend/src/services/authService.js:13-30 | forwards the projection and returns the underlying result unchanged |
| `AuthService.Logout` | Frontend/src/services/authService.js:32-34 | delegates, so only the token key is removed |
| `AuthContext.FallbackMessage` | Frontend/src/context/AuthContext.js:71-146 | each operation's fallback message is non-empty |
| `AuthContext.SignInResult` | Frontend/src/context/AuthContext.js:63-147 | success returns the body; failure throws the server's message, else the operation's fallback |
| `AuthContext.ContextIsAuthenticated` | Frontend/src/context/AuthContext.js:158 | authenticated exactly when a user is held or the third-party provider says so |
| `AuthContext.UseAuth` | Frontend/src/context/AuthContext.js:7-13 | fails, with its fixed message, exactly when there is no provider |
| `AuthContext.SignInPersists` | Frontend/src/context/AuthContext.js:63-70 | a successful sign-in stores the token and a user that reads back as the returned user, sets memory to it, keeps other keys, and authenticates; memory and storage agree exactly when the token is non-empty |
| `AuthContext.RejectionChangesNothing` | Frontend/src/context/AuthContext.js:40-74 | a rejected sign-in, or a failing provider bridge, changes neither storage nor memory |
| `AuthContext.LogoutClears` | Frontend/src/context/AuthContext.js:149-153 | logout removes both keys and the user, keeps other keys, agrees with storage, is idempotent, and leaves `isAuthenticated` equal to the provider's flag |
| `AuthContext.RestoreAgrees` | Frontend/src/context/AuthContext.js:20-38 | restoring on mount leaves memory agreeing with storage, is idempotent, and never adds keys |
| `AuthContext.RestoreClearsUnparsable` | Frontend/src/context/AuthContext.js:29-35 | a stored user that fails to parse clears both keys and the user |
| `AuthContext.AuthProvider.constructor` | Frontend/src/context/AuthContext.js:16-17 | no user, loading, children not rendered |
| `AuthContext.AuthProvider.RestoreOnMount` | Frontend/src/context/AuthContext.js:20-38 | memory and storage as `Restore` says; with no token both untouched; loading over, so children render |
| `AuthContext.AuthProvider.SignIn` | Frontend/src/context/AuthContext.js:63-147 | storage and memory as `SignedIn` says, result as `SignInResult` says |
| `AuthContext.AuthProvider.HandleProviderUser` | Frontend/src/context/AuthContext.js:40-61 | runs only for an authenticated provider profile; writes as a sign-in does; a failure changes nothing |
| `AuthContext.AuthProvider.Logout` | Frontend/src/context/AuthContext.js:149-153 | storage and memory as `LoggedOut` says |
| `SessionCopies.ClientLogoutDiverges` | Frontend/src/services/api.js:110-112 | after the client's logout the context still holds the user while a reload restores nobody, and the stored user stays |
| `SessionCopies.ClientLoginRestoresEarlierUser` | Frontend/src/services/api.js:46-49 | the client's login next to an earlier session's stored user makes a reload restore that earlier user |
| `SessionCopies.EarlierUserWins` | Frontend/src/services/api.js:46-49 | a concrete pair of users for which that happens |
| `LoginPage.Login.constructor` | Frontend/src/pages/Login.js:9-14 | empty e-mail and password; portal type `employee` |
| `LoginPage.Login.HandleChange` | Frontend/src/pages/Login.js:18-24 | only the named field changes |
| `LoginPage.DashboardFor` | Frontend/src/pages/Login.js:39 | the admin dashboard if and only if the portal is `admin`, else the employee dashboard |
| `LoginPage.LoginErrorMessage` | Frontend/src/pages/Login.js:41 | the thrown value's message, else `Login failed. Please try again.`; never empty |
| `LoginPage.ServerDataIgnored` | Frontend/src/pages/Login.js:34-37 | on success the dispatched user is the form's e-mail alone and the portal is the form's, whatever the server returned |
| `LoginPage.NoNavigationOnFailure` | Frontend/src/pages/Login.js:40-44 | a failure dispatches its message and never navigates |
| `LoginPage.FallbackWhenNoMessage` | Frontend/src/pages/Login.js:41 | a server body without `message`, or a transport error with an empty message, shows the fallback |
| `LoginPage.ServiceRequests` | Frontend/src/services/api.js:45-55 | one login sends `POST /login` first, and `GET /getAll` as well exactly when the answer's user has no type |
| `LoginPage.Login.HandleSubmit` | Frontend/src/pages/Login.js:26-45 | clears the error, dispatches start, logs the service's requests (`/login`, and `/getAll` for a user without a type), then success plus navigation or failure plus the shown message |
| `SignupPage.Signup.constructor` | Frontend/src/pages/Signup.js:7-13 | four empty fields, no error |
| `SignupPage.Signup.HandleChange` | Frontend/src/pages/Signup.js:17-23 | only the named field changes |
| `SignupPage.RegisterBody` | Frontend/src/pages/Signup.js:35-39 | the register input has exactly `name`, `email` and `password`; no confirmation is sent |
| `SignupPage.SignupErrorMessage` | Frontend/src/pages/Signup.js:42 | the error's message, else `Registration failed. Please try again.` |
| `SignupPage.ContextMessageShown` | Frontend/src/pages/Signup.js:41-43 | the context always throws a non-empty message, so the page shows it verbatim and its own fallback is unreachable |
| `SignupPage.Signup.HandleSubmit` | Frontend/src/pages/Signup.js:25-44 | a password mismatch sets its message and sends nothing; otherwise registers, then navigates to `/jobs` or shows the error |
| `NavBar.Authenticated` | Frontend/src/components/NavBar.js:10-12 | the bar is signed in when the context or the store says so |
| `NavBar.Items` | Frontend/src/components/NavBar.js:102-177 | Jobs, Companies and Logout are shown if and only if signed in, the Login link if and only if not |
| `NavBar.IsActive` | Frontend/src/components/NavBar.js:103-146 | a link is active if and only if the current path is its target |
| `NavBar.AtMostOneActive` | Frontend/src/components/NavBar.js:107-143 | no two items are active at once |
| `NavBar.Scrolled` | Frontend/src/components/NavBar.js:21 | scrolled exactly when `scrollY > 20` |
| `NavBar.Bar.constructor` | Frontend/src/components/NavBar.js:17 | not scrolled at first |
| `NavBar.Bar.IsAuthenticated` | Frontend/src/components/NavBar.js:10-12 | signed in when the context holds a user, the provider says so, or the store says so |
| `NavBar.Bar.HandleScroll` | Frontend/src/components/NavBar.js:20-23 | `scrolled` follows the threshold rule |
| `NavBar.Bar.HandleLogout` | Frontend/src/components/NavBar.js:29-38 | the context session is cleared before the store's logout is dispatched, then navigation to `/login` |
| `NavBar.AfterLogout` | Frontend/src/components/NavBar.js:29-38 | after logout the bar is still signed in exactly when the provider or the store says so |
| `AppRoutes.ProtectedRoute` | Frontend/src/App.js:113-131 | redirect to `/login` if and only if the store says signed out, otherwise render the children |
| `AppRoutes.PortalTypeIgnored` | Frontend/src/App.js:127-130 | signed in, the guard passes whatever portal the route names and whatever the user's is |
| `AppRoutes.RouteTableShape` | Frontend/src/App.js:148-206 | the six listed paths are guarded and the five public ones are not |
| `AppRoutes.RedirectsIffGuardedAndSignedOut` | Frontend/src/App.js:148-206 | a known path redirects if and only if it is guarded and the store says signed out; otherwise it shows its page |
| `AppRoutes.EmployeeReachesAdminPages` | Frontend/src/App.js:172-195 | a user signed in through the employee portal reaches every admin page |

## Left out

- Network I/O: each request's answer is a parameter. The axios instance, its base URL
  and the logging response interceptor are not modelled, and neither are the request
  bodies of the provider sign-in variants.
- Asynchronous ordering: each handler runs to completion, so promise interleavings and
  writes after unmount are not modelled.
- The store's authentication slice: its reducer is not available, so its actions are
  only recorded. Its `isAuthenticated` and `portalType` are inputs of the bar and the guard.
- Third-party providers: their authenticated flag and profile are inputs, and their
  sign-in screens are not modelled.
- JSON: a length-prefixed encoding stands in for `JSON.stringify`/`JSON.parse`. Values
  such as `null` or `undefined` written as text are not modelled.
- `Number(value)` for the salary field is kept symbolic (`NumberOf`), since floating
  point is not modelled.
- `AuthContext.AuthProvider.SignIn`: the answer always carries `token` and `user`; a missing field,
  which the source would store as the text `undefined`, is not modelled.
- `Api.LoginResult`: a server error response is assumed to have a truthy body, so the
  `|| error` fallback applies only when there is no response.
- `Api.Backfilled`: a listing answer without a `users` array, which throws and is
  swallowed, counts as a failed listing.
- The `userService` calls in `api.js` (list, edit, delete, image upload) are
  pass-through network calls. They are not part of this model.
- Window scroll listener registration and removal, all styling, the theme, the static
  pages, the dashboards, the job and company services and cards, `store.js`, and the
  backend are not part of this model.
