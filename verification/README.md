# Login and signup screens: a Dafny model

This project models the two authentication screens of the application: the
signup form (`components/Signup.tsx`) and the login form
(`components/Login.tsx`). Each screen has one submit handler with precise
behaviour, and that handler is the part modelled here.

- **Signup** validates the form in a fixed order. A password mismatch is
  checked first. An email already in the shared user list is checked second,
  with exact, case-sensitive equality. Otherwise the form enters loading and
  schedules a timer. When the timer fires, one new, unapproved `Member` with
  the default permissions is appended to the list. The form then leaves
  loading and switches for good to the confirmation view.
- **Login** clears the error and enters loading, then signs in. If a user
  comes back, it fetches that user's profile row and applies the approval
  gate. A row whose `isApproved` is exactly `false` is refused. Any other
  row is passed to the success callback. Every failure after a successful
  sign-in is followed by one compensating sign-out. On every path where the
  collaborators return, loading is left at the end. The eye button toggles
  password visibility.

Files:

- `types.dfy` (module `Types`): the `User` record, the backend's profile row
  (`ProfileRow`) and the view tags.
- `events.dfy` (module `Events`): a submit handler's observable steps as a
  trace of `Event`s. An event is a state write (`setError`, `setIsLoading`,
  `setIsSubmitted`, the list append) or a collaborator call (sign-in, profile
  fetch, sign-out, success callback). The module also gives the message and
  loading flag left behind by a trace.
- `signup.dfy` (module `Signup`): the pure duplicate check and validation.
  The shared list is a class `UserDirectory` owned by the parent. The form
  is a class `SignupForm` with `Submit` (the synchronous part of the handler)
  and `Complete` (the timer continuation).
- `login.dfy` (module `Login`): the full trace of one submit for every
  combination of backend outcomes (`SubmitTrace`), and the lemmas about it.
  The form is a class `LoginForm`. Its `HandleSubmit` is proved to produce
  exactly that trace.

Both form classes keep a ghost `trace` of every write and call their submit
handler (and, for signup, its timer continuation) has made. The handlers
change state only through small setter methods, one per React setter
(`WriteError`, `WriteLoading`, `WriteSubmitted`, `AppendToDirectory`). Each
setter writes its field and records its own event, and collaborator calls
are recorded by `Call`. So the trace is the sequence of the handler's writes
by construction. This lets the order of steps be stated: the error is
cleared first, loading is never entered on a validation failure, and the
sign-out follows the error message. The final state alone cannot show these.
Each class's `Valid()` also ties the trace to the real fields: the error and
the loading flag are always the last ones the trace wrote. A direct write
that bypasses a setter breaks this, and the next setter call no longer
verifies. Every method keeps `Valid()`.

Two behaviours of the code are easy to misread:

- The approval gate blocks only an `isApproved` that is exactly `false`. A
  null or missing flag lets the user in (`components/Login.tsx:64`). It
  does not require a flag that is `true`.
- Nothing checks that a new signup id is distinct from existing ids. The id
  comes from the platform's UUID generator (`components/Signup.tsx:57`).
  `Signup.FreshIdKeepsIdsUnique` takes freshness as a hypothesis.

## Model

| member | source | states |
|---|---|---|
| `Signup.EmailTaken` | components/Signup.tsx:47 | the duplicate check is true exactly when some user in the list has the identical email string |
| `Signup.Check` | components/Signup.tsx:42-50 | mismatch iff the passwords differ; duplicate iff they match and the email is taken; accepted iff they match and no user has the email; so a mismatch wins over a duplicate |
| `Signup.Message` | components/Signup.tsx:43-48 | the message is empty exactly when the submit is accepted |
| `Signup.SubmitWrites` | components/Signup.tsx:40-52 | a submit first clears the error; loading is set true iff the submit is accepted; the message left is the mismatch or duplicate message, or empty when accepted, whatever was shown before; a submit never appends or sets submitted |
| `Signup.SubmitWritesLeave` | components/Signup.tsx:40-52 | whatever was shown before, a submit made while not loading leaves its verdict's message on screen, and loading on exactly when it was accepted |
| `Signup.NewMember` | components/Signup.tsx:56-64 | the new record carries the captured name, email and password and the given id; its role is `Member`, its permissions are CLIENTS, PROJECTS, CALENDAR, and it is not approved |
| `Signup.UserDirectory.constructor` | components/Signup.tsx:24-27 | the shared list starts as the parent's list |
| `Signup.SignupForm.constructor` | components/Signup.tsx:30-36 | all inputs and the error start empty; not loading, not submitted, nothing scheduled; the invariant holds |
| `Signup.SignupForm.WriteError` | components/Signup.tsx:34 | `setError`: the error takes the new message, exactly that write is recorded, and nothing else changes |
| `Signup.SignupForm.WriteLoading` | components/Signup.tsx:35 | `setIsLoading`: the flag takes the new value, exactly that write is recorded, and nothing else changes |
| `Signup.SignupForm.WriteSubmitted` | components/Signup.tsx:36 | `setIsSubmitted`: the flag takes the new value, exactly that write is recorded, and nothing else changes |
| `Signup.SignupForm.AppendToDirectory` | components/Signup.tsx:66 | the functional update appends the record to the shared list as it is now, records the append, and changes nothing else |
| `Signup.SignupForm.View` | components/Signup.tsx:72 | the confirmation is shown exactly when the signup has completed |
| `Signup.SignupForm.Edit` | components/Signup.tsx:117-156 | the four controlled inputs take the typed values; nothing else changes; the invariant is kept |
| `Signup.SignupForm.Submit` | components/Signup.tsx:38-55 | on the registration form, while not loading: the list object is untouched on every path; the trace grows by the writes of `SubmitWrites` for the verdict of `Check`; the error shown is that verdict's message; loading iff accepted; when accepted, a continuation is scheduled with the name, email and password captured at submit time; the form stays shown; the invariant is kept |
| `Signup.SignupForm.Complete` | components/Signup.tsx:55-72 | the list becomes the current list plus exactly one record at the end: the captured name, email and password, the given id, role `Member`, permissions CLIENTS, PROJECTS, CALENDAR, not approved; loading ends, submitted is set, the view becomes the confirmation; the trace grows by the append, the loading write and the submitted write, in that order; the invariant is kept |
| `Signup.SignupKeepsEmailsUnique` | components/Signup.tsx:47-66 | appending the record of a submit that passed the check against the same list keeps all emails pairwise distinct |
| `Signup.FreshIdKeepsIdsUnique` | components/Signup.tsx:57-66 | an id that no listed user carries keeps all ids pairwise distinct after the append |
| `Signup.ResubmitIsDuplicate` | components/Signup.tsx:47-66 | once a record is appended, submitting its email again with matching passwords is refused as a duplicate |
| `Signup.SubmitThenComplete` | components/Signup.tsx:38-72 | a submit from the registration form and its continuation with no other writer in between: the list grows by one record exactly when accepted and is unchanged otherwise; distinct emails stay distinct; distinct ids stay distinct when the new id is fresh; afterwards the confirmation is shown if accepted and the form otherwise |
| `Events.FinalErrorIsLastWrite` | components/Login.tsx:43-72 | the message on screen is the last one written after all earlier writes |
| `Login.PendingApproval` | components/Login.tsx:64 | a row passes the approval gate exactly when its flag is `true` or is not a boolean at all (null, missing) |
| `Login.SubmitTrace` | components/Login.tsx:41-76 | every submit, whatever the outcomes, first clears the error, enters loading and signs in, and leaves loading as its last step; it makes four to seven steps |
| `Login.ShownMessage` | components/Login.tsx:51-73 | the message left is empty exactly when the sign-in returned no user or the user was admitted |
| `Login.ProfileSteps` | components/Login.tsx:54-73 | after a sign-in that produced a user, the profile of that user is fetched first; a sign-out follows exactly when the user is not admitted; two or three steps |
| `Login.SignedInTrace` | components/Login.tsx:41-76 | a submit whose sign-in produced a user is the common opening, the profile steps and the final loading write |
| `Login.AuthFailedPath` | components/Login.tsx:43-52 | failed sign-in: the error is cleared, then loading is entered and the sign-in issued; the credentials message is left, loading ends false, and there is no profile fetch, no sign-out and no callback |
| `Login.NoUserPath` | components/Login.tsx:43-53 | a sign-in with neither error nor user: only the bracketing steps, the error stays empty, loading ends false, no fetch, no sign-out, no callback |
| `Login.FetchFailedPath` | components/Login.tsx:54-62 | profile fetch error: the retry message is left, exactly one sign-out, exactly one fetch for the signed-in id, no callback, loading ends false |
| `Login.PendingApprovalPath` | components/Login.tsx:64-66 | a row whose flag is exactly false: the pending-approval message is left, exactly one sign-out, no callback, loading ends false |
| `Login.AdmittedPath` | components/Login.tsx:64-69 | a row whose flag is anything but false (true, null, missing): the callback runs exactly once, with that row; there is no sign-out, the error stays empty and loading ends false |
| `Login.ProfileMissingPath` | components/Login.tsx:70-72 | no row and no error: the missing-data message is left, exactly one sign-out, no callback, loading ends false |
| `Login.SubmitOutcome` | components/Login.tsx:41-76 | for every combination of outcomes: the submit is bracketed by clear error / loading on / sign-in and a final loading off; it leaves the message of the case table and loading off; it fetches only the signed-in id, once, exactly when a user was returned; it signs out once exactly when signed in but not admitted, never otherwise; it calls back only when admitted, and then once with the fetched row |
| `Login.SignOutExcludesSuccess` | components/Login.tsx:60-73 | a submit that calls back never signs out and leaves the error empty |
| `Login.SubmitLeaves` | components/Login.tsx:41-76 | whatever the screen went through before, a submit leaves the message of the case table on screen and loading off |
| `Login.LoginForm.constructor` | components/Login.tsx:35-39 | inputs and error start empty; the password is masked and the form is not loading; the invariant holds |
| `Login.LoginForm.Edit` | components/Login.tsx:103-116 | the two controlled inputs take the typed values; nothing else changes; the invariant is kept |
| `Login.LoginForm.TogglePasswordVisibility` | components/Login.tsx:120 | the visibility flag is negated and nothing else changes; the invariant is kept |
| `Login.ToggleTwiceRestores` | components/Login.tsx:120 | pressing the eye button twice restores the visibility flag and leaves every other field, the trace included, unchanged |
| `Login.LoginForm.WriteError` | components/Login.tsx:38 | `setError`: the error takes the new message, exactly that write is recorded, and nothing else changes |
| `Login.LoginForm.WriteLoading` | components/Login.tsx:39 | `setIsLoading`: the flag takes the new value, exactly that write is recorded, and nothing else changes |
| `Login.LoginForm.Call` | components/Login.tsx:46-68 | a call to the identity provider, the profile table or the success callback is recorded and writes no field of the form |
| `Login.LoginForm.LoadProfile` | components/Login.tsx:54-73 | the trace grows by exactly the profile steps; the error becomes the retry, pending-approval or missing-data message, and is left as it was when the user is admitted; loading and the inputs are untouched |
| `Login.LoginForm.HandleSubmit` | components/Login.tsx:41-76 | the trace grows by exactly the submit trace for the given outcomes; the error left is the message of the case table; loading is false at the end; the inputs and visibility are unchanged; the invariant is kept |

## Left out

- `Login.LoginForm.HandleSubmit`: the collaborators are assumed to return a
  value and never throw or reject. The handler has no `finally`
  (`components/Login.tsx:41-76`). If the success callback (line 68) throws,
  or an awaited call (lines 46, 54, 62, 66 or 72) rejects, the final
  `setIsLoading(false)` (line 75) never runs. The form then stays loading
  and its button stays disabled (line 131). The model has no outcome for
  this.
- The browser's own form validation is not modelled. The `required`
  attributes (`components/Signup.tsx:113,126,139,152`,
  `components/Login.tsx:99,112`) and the `type="email"` input
  (`components/Signup.tsx:124`) stop the submit event before the handler
  runs. So in the application the handlers never see an empty field or,
  on signup, a malformed email. `Signup.SignupForm.Submit` and
  `Login.LoginForm.HandleSubmit` accept any strings.
- JSX layout, CSS and the SVG icons are not modelled. The only rendering
  decision kept is the signup view switch (`Signup.SignupForm.View`).
- Hash navigation between the screens (`window.location.hash`) is a browser
  side effect.
- The Supabase client calls are not modelled. The sign-in answer and the
  profile query's answer are inputs (`AuthOutcome`, `ProfileOutcome`), and
  sign-out is a recorded event. Whether the library reports a missing row
  as an error or as empty data is its own business; both branches are
  modelled.
- Only the profile row's approval flag is modelled precisely. Any value
  other than a boolean (null, undefined, a missing column) is one case,
  `None`. The application's type declarations are not part of this model.
  Role is a string, and the view tags are the three signup grants plus any
  other by name.
- The one-second delay of `setTimeout` is not modelled; the continuation is
  the separate step `Complete`. The random UUID is the `id` parameter.
- Overlapping submits are not modelled, and neither are updates after the
  component unmounts. `Signup.SignupForm.Submit` requires that no submit
  is pending, because the submit button is disabled while loading
  (`components/Signup.tsx:163`). It also requires that the signup has not
  completed, because the form is no longer rendered after that
  (`components/Signup.tsx:72`). Each login submit runs as one step. So
  other events cannot interleave with its awaits: one when the sign-in
  fails or returns no user, two when the user is admitted, and three on a
  path that signs out.
- React's batching of state updates is not modelled. Each `set…` call is an
  immediate field write, and every write is also recorded in the trace.
  `e.preventDefault()` is not modelled.
- Re-rendering changes nothing: the only rendering member,
  `Signup.SignupForm.View`, is a function that reads state.
