# Profile forms: a Dafny model of the form logic

The repository has two client-side form components. One is a profile-update form
(`src/Component/updat-pro.js`). The other is a registration form
(`src/Component/register.js`). Apart from markup and styling, their logic is the
following, and this project models it:

- **Update form.** A profile object starts as `UserID` 1, empty strings and the first
  avatar. It is edited one key at a time. `handleChange` writes any key it is given.
  `handleAvatarChange` writes the lowercase key `avatar`. It never changes `AvatarUrl`.
  The whole profile is sent, so the request carries both keys: `AvatarUrl` still holds
  the first avatar and `avatar` holds the choice. `validateForm` builds an error map from three rules: name is
  required, email is required, and the password needs a `length` of at least 8. (JavaScript
  counts `length` in UTF-16 code units, so a character outside the Basic Multilingual
  Plane counts twice.) It stores
  that map and reports whether it is empty. `handleSubmit` sends the profile with a PUT
  request only when validation passes. The way the request ends becomes the
  `updateStatus` string.
- **Register form.** Five text fields and an avatar each have their own setter. The
  register handler raises `isLoading` and POSTs the fields with no validation to
  `apiUrl + 'create'`, which is `.../api/userscreate`. The Register button is disabled
  while `isLoading` is true. The handler suspends twice:
  - When `fetch` settles, it lowers `isLoading` on every path. On an ok response it alerts success and navigates to `Login`. On a rejection it alerts the error.
  - On a non-ok response it then awaits `response.text()` before alerting the failure. The button is already enabled during that wait, so a second POST can go out before the first failure alert.
  - If that body read rejects, the `catch` lowers `isLoading` once more. If a newer request is in flight by then, its flag is cleared and two requests can be in flight at once.

Files:
- `assets.dfy` (module `Assets`): the six avatars as a closed enumeration.
- `web.dfy` (module `Web`): browser-side helpers shared by both forms.
  - `Option`, and `Outcome<B> = Ok | NotOk(body) | Threw(message)`. `Outcome` is how an awaited `fetch` ended. `B` is what the handler reads from a non-ok body.
  - `Prefixed`, for template strings with a fixed prefix.
  - `Utf16Length`, JavaScript's string `length`.
- `profile_update.dfy` (module `ProfileUpdate`):
  - pure functions for the two state updaters, the validator and the status message;
  - lemmas about them;
  - the class `ProfileUpdateForm`, which holds `profile`, `errors`, `updateStatus` and a log of the PUT requests sent.
- `register.dfy` (module `Register`):
  - a pure state machine (`State`, `Event`, `Step`, `Run`) that specifies the form, with one event per resumption of the handler;
  - an invariant `Consistent`, proved over every sequence of events;
  - the class `RegisterForm`, whose methods are proved against `Step`.

External effects are not performed. They are recorded instead:
- the network result is a parameter: an `Outcome` for the update form, and a `Settlement` and a `TextRead` for the two awaits of the register form;
- sent requests are logged as `(verb, url, body)`;
- alerts are logged as strings;
- navigations are logged as screen names.

Where the code and the design description differ, the model follows the code:
- The email is only checked for being non-empty. There is no format check.
- The phone pattern `05X-XXXXXXX` is never enforced, because the form sets `noValidate`.
- The register form does no validation at all.
- The avatar setter does no membership check. With a closed enumeration, no foreign value can be expressed anyway.
- The create endpoint is `.../api/userscreate`, not `.../api/users`.
- The update form has no guard against a second submit while a request is pending.

## Model

| member | source | states |
|---|---|---|
| `Assets.AvatarsListEachImageOnce` | src/Component/updat-pro.js:10-17 | the avatar list holds each of the six images exactly once; its first entry is the default |
| `ProfileUpdate.ProfileUpdateForm.constructor` | src/Component/updat-pro.js:20-31 | the initial profile has `UserID` 1, empty `UserName`, `Email`, `Phone`, `Password` and `Birthday`, and `AvatarUrl` set to the first avatar; `errors` is empty, `updateStatus` is null, nothing has been sent |
| `ProfileUpdate.ChangeField` | src/Component/updat-pro.js:33-40 | the updated profile holds the typed string under `name`; every other key keeps its value; only `name` may be added as a key |
| `ProfileUpdate.ProfileUpdateForm.HandleChange` | src/Component/updat-pro.js:33-40 | the profile becomes `ChangeField` of the old one; errors, status and the request log are untouched; text fields stay strings |
| `ProfileUpdate.ChangeAvatar` | src/Component/updat-pro.js:42-47 | the key `avatar` holds the choice; `AvatarUrl` and every other key keep their previous values |
| `ProfileUpdate.ProfileUpdateForm.HandleAvatarChange` | src/Component/updat-pro.js:42-47 | the profile becomes `ChangeAvatar` of the old one; nothing else changes |
| `Web.Utf16Length` | src/Component/updat-pro.js:54 | JavaScript's `length` of a string: at least its number of characters and at most twice that, counting two for each character at or above U+10000 |
| `Web.Utf16LengthOfBmpText` | src/Component/updat-pro.js:54 | on text without characters outside the Basic Multilingual Plane, `length` equals the number of characters |
| `ProfileUpdate.Validate` | src/Component/updat-pro.js:51-56 | error keys are a subset of `UserName`, `Email` and `Password`; each key is present exactly when its rule fails (a falsy name, a falsy email, a falsy password or one whose UTF-16 `length` is below 8), and carries that rule's message |
| `ProfileUpdate.AcceptsIffNoErrors` | src/Component/updat-pro.js:58 | the error map is empty if and only if the profile satisfies all three rules |
| `ProfileUpdate.ValidateOnTextFields` | src/Component/updat-pro.js:52-56 | on string fields: a name or email error exactly when the field is empty; a password error exactly when its UTF-16 `length` is below 8, the empty password included |
| `ProfileUpdate.FourEmojiPasswordIsAccepted` | src/Component/updat-pro.js:54 | a password of four U+1F600 characters, with a name and an email, passes: its `length` is 8 |
| `ProfileUpdate.OtherKeysDoNotMatter` | src/Component/updat-pro.js:49-59 | writing any key other than the three validated ones, `Phone` and `Birthday` included, leaves the error map unchanged |
| `ProfileUpdate.AvatarChoiceKeepsErrors` | src/Component/updat-pro.js:42-59 | choosing an avatar never changes the outcome of validation |
| `ProfileUpdate.ErrorsNeverUseRenderedKeys` | src/Component/updat-pro.js:103 | the validator never writes the lowercase keys `name`, `email`, `phone` or `password` that the markup reads |
| `ProfileUpdate.InitialProfileIsRejected` | src/Component/updat-pro.js:20-56 | the untouched form gets all three errors with their messages |
| `ProfileUpdate.MissingNameOnly` | src/Component/updat-pro.js:51-58 | a form with any non-empty email and any password of at least 8 characters, but no name, gets exactly `{UserName: "Name is required"}` |
| `ProfileUpdate.ProfileUpdateForm.ValidateForm` | src/Component/updat-pro.js:49-59 | builds the map key by key and stores exactly `Validate(profile)` into `errors`. It returns true if and only if that map is empty, which is when the profile satisfies the rules. It states the string-level rules: a name or email error exactly when the field is empty, and a password error exactly when its `length` is below 8. The profile is not changed |
| `ProfileUpdate.UpdateStatus` | src/Component/updat-pro.js:70-78 | the status is "Profile updated successfully" exactly on an ok response. It starts with "Failed to update profile: " exactly on a non-ok JSON body, followed by its `message` or "undefined". It starts with "Error: " exactly when the request threw or the error body was not JSON, followed by the error message |
| `ProfileUpdate.ProfileUpdateForm.UpdateProfile` | src/Component/updat-pro.js:61-79 | sends one PUT of the current profile to `http://localhost:5555/api/users`; the status becomes `UpdateStatus(outcome)`; the profile and errors are unchanged |
| `ProfileUpdate.ProfileUpdateForm.HandleSubmit` | src/Component/updat-pro.js:81-86 | errors become `Validate(profile)`. A request is sent and the status set if and only if validation passes. Otherwise nothing is sent and the status keeps its old value. The profile is unchanged in every case |
| `Register.InitialIsConsistent` | src/Component/register.js:22-28 | the five text fields start empty, the avatar is `avatars[0]`, `isLoading` is false, and the initial state satisfies the invariant |
| `Register.RegisterForm.constructor` | src/Component/register.js:22-28 | the component starts in the state `Initial` and satisfies the invariant |
| `Register.SettersAreIndependent` | src/Component/register.js:58-111 | each text setter and the avatar setter changes its own field and nothing else |
| `Register.RegisterForm.SetUsername` | src/Component/register.js:70 | only `username` changes, to the typed text |
| `Register.RegisterForm.SetEmail` | src/Component/register.js:80 | only `email` changes, to the typed text |
| `Register.RegisterForm.SetPhone` | src/Component/register.js:90 | only `phone` changes, to the typed text |
| `Register.RegisterForm.SetPassword` | src/Component/register.js:100 | only `password` changes, to the typed text |
| `Register.RegisterForm.SetBirthday` | src/Component/register.js:111 | only `birthday` changes, to the typed text |
| `Register.RegisterForm.HandleAvatarChange` | src/Component/register.js:58-60 | `avatar` becomes exactly the given choice, with no membership check; nothing else changes |
| `Register.RegisterUrlHasNoSeparator` | src/Component/register.js:29-34 | the create URL is `http://localhost:5555/api/userscreate` |
| `Register.PressSendsFieldsVerbatim` | src/Component/register.js:32-40 | a press when idle raises `isLoading`. It sends one POST to `.../api/userscreate` whose body is the current fields as typed, with no validation: `username` becomes `userName`, and `email`, `phone`, `password`, `birthday` and `avatar` pass through unchanged |
| `Register.RegisterForm.HandleRegister` | src/Component/register.js:31-41 | raises `isLoading` and appends the POST request built from the current fields (`handleRegister` up to its first await) |
| `Register.ReactTo` | src/Component/register.js:45-55 | it navigates (to `Login`) exactly on an ok response. The alert is "Registration Successful" exactly on an ok response. It is "Registration Failed: " plus the body text exactly on a non-ok response whose body was read, and "Error: " plus the message exactly when a rejection was caught |
| `Register.RegisterForm.ResumeAfterFetch` | src/Component/register.js:43-54 | when `fetch` settles, `isLoading` is lowered on every path. An ok response alerts success and navigates. A rejection alerts the error. A non-ok response starts a body read and alerts nothing yet |
| `Register.RegisterForm.ResumeAfterBodyRead` | src/Component/register.js:49-54 | when `response.text()` settles, one failure alert with the text is shown, or, on a rejection, the error alert is shown and `isLoading` is lowered |
| `Register.SettlingClearsLoading` | src/Component/register.js:43-54 | however an unsettled request settles, `isLoading` is false afterwards. Ok adds the success alert and navigates to `Login`. A rejection adds "Error: " plus its message. A non-ok response adds no alert yet and one pending body read |
| `Register.BodyReadAlertsOnce` | src/Component/register.js:49-54 | a pending body read ends in exactly one alert and no navigation: "Registration Failed: " plus the text, leaving `isLoading` alone; or "Error: " plus the read's message, lowering `isLoading` |
| `Register.PressBeforeFailureAlert` | src/Component/register.js:43-50 | after a non-ok response, a press before the body has been read sends a second POST while no alert has been shown yet |
| `Register.RejectedReadReenablesButton` | src/Component/register.js:52-54 | a rejected body read of an earlier response lowers the flag of a newer, unsettled request; a further press then leaves two requests unsettled at once |
| `Register.PressWhileLoadingIsIgnored` | src/Component/register.js:141 | a press while `isLoading` is true changes nothing and sends nothing |
| `Register.RegisterForm.Press` | src/Component/register.js:132-142 | the button runs `handleRegister` only when `isLoading` is false; otherwise no request is sent |
| `Register.StepKeepsConsistent` | src/Component/register.js:31-56 | every event keeps the invariant. `isLoading` holds only while a request is unsettled. Unsettled requests number at most one plus the rejected body reads. Every settled request has its alert or a pending body read. All navigations go to `Login`. All requests are POSTs to the create URL |
| `Register.RunKeepsConsistent` | src/Component/register.js:31-56 | every finite sequence of events keeps the invariant |
| `Register.AtMostOneRequestInFlight` | src/Component/register.js:31-56 | from the initial form, as long as no body read has been rejected, at most one request is unsettled, and one is unsettled exactly while `isLoading` is true |

## Left out

- Markup and styles (the JSX and `StyleSheet`) are presentation. This includes the update form's inputs, which read `profile.name`, `errors.name` and other lowercase keys that are never set. `ErrorsNeverUseRenderedKeys` states only that the validator never writes them.
- `fetch`, `response.json()`, `response.text()` and `JSON.stringify` are foreign calls. Their results become parameters.
  - Request bodies are kept as values: the profile map itself, or the `Body` record. No JSON text is built, so serialisation round trips are not modelled.
  - Request headers are not modelled.
- A JSON error body that is `null`, or whose `message` is not a string, is not modelled. The update form's error body is either not JSON, or an object whose `message` is a string or absent.
- An exception thrown by `alert` or `navigation.navigate` is not modelled.
- React's asynchronous, batched `setState` and async/await scheduling are left out. Every handler is one atomic step, with one exception: the register handler is split at each of its two awaits, into `HandleRegister`, `ResumeAfterFetch` and `ResumeAfterBodyRead`, so the states between them can be observed.
- `ProfileUpdate.ProfileUpdateForm.UpdateProfile`: the update form's `updateProfile`, with its two awaits (`fetch` and `response.json()`), is modelled as ending within the submit step. Other events cannot interleave with a pending update request, and the order in which several pending requests finish is not captured.
- `Register.RegisterForm.HandleRegister` requires `isLoading` to be false. The Register button is its only caller, and the button is disabled while loading. Calling `handleRegister` again while it is loading, from outside that button, is not modelled.
- `alert`, `navigation.navigate` and `console.log` are side effects. The first two are recorded in logs, and `console.log` is dropped.
- The register screen's "Already have an Account?" button navigates to `Login` without any request. It is not modelled, so the `navigations` log and its bound `|navigations| <= settled` cover only the navigations made by the register handler.
- Image imports are opaque. They are the enumeration `Avatar`.
- The HTML attributes `pattern`, `minLength` and `required` are not enforced, because the form sets `noValidate`. They are not modelled.
- `ProfileUpdate.TooShort` treats an avatar reference stored under `Password` as long enough. The length of an asset URL is unknown. No handler can store one there, and `TextFieldsAreStrings`, which every method of the class preserves, rules it out.
- Unmounting, and dropping a response that arrives afterwards, are not modelled because there is no code for them.
