# Registration form controller

A Dafny model of the submission logic of the registration form component
(`RegisterContainer`). The user fills in four required fields. An invisible
challenge widget (reCAPTCHA) may have to supply a token before the form can be
sent. The component then calls the registration endpoint and turns the result
into flash messages. When the endpoint rejects the request, the component checks
the echoed username and email again on the client, using two regular
expressions. If either check fails, a fixed message replaces the server's error.

The model has two modules:

- `Validators` (validators.dfy) models the two regular expressions. Each one is
  a sequence of pattern items: a character class matched once, or any number of
  times. `Matches` is a backtracking matcher over such sequences. The JavaScript
  `\s` class is written out as the ECMAScript WhiteSpace and LineTerminator code
  points. Lemmas prove that each pattern accepts exactly the strings of a
  character-level description (`UsernameShape`, `EmailShape`).
- `Registration` (registration.dfy) models the controller. Its state is the
  token, the `submitting` flag, the flash list, and a log of calls to
  `register`, `execute()` and `reset()`. Every asynchronous continuation is an
  explicit `Event`. `Next` is the reference definition of one transition, and
  `Run` folds it over a sequence of events. The class `Controller` holds the
  same state in mutable fields. Its handlers update those fields step by step,
  as the component does. Each event handler is proved to leave `Snapshot()`
  equal to `Next` applied to the old snapshot and its event. `OnSubmit` is
  proved equal to `SubmitHandler`. Lemmas state what each transition does and
  what holds over every run.

When a submission defers to the challenge (lines 37-46), `onSubmit` returns
without calling `setSubmitting(false)`. So the form stays submitting until the
widget calls back or the registration settles.

## Model

| member | source | states |
|---|---|---|
| `Validators.IsValidUsername` | resources/scripts/components/auth/RegisterContainer.tsx:68 | the username test passes iff the string has at least two characters, an ASCII letter or digit at each end, and only letters, digits, `_`, `.` and `-`; so no string shorter than two passes |
| `Validators.UsernameMatchIff` | resources/scripts/components/auth/RegisterContainer.tsx:68 | the anchored username pattern, run by the matcher, accepts exactly the strings of `UsernameShape` |
| `Validators.IsValidEmail` | resources/scripts/components/auth/RegisterContainer.tsx:71 | the email test passes iff there is no white space, exactly one `@` with a non-empty part before it, and a `.` after it that is neither the first nor the last character of the domain |
| `Validators.EmailMatchIsShaped` | resources/scripts/components/auth/RegisterContainer.tsx:71 | every string the anchored email pattern accepts has `EmailShape` |
| `Validators.ShapedEmailMatches` | resources/scripts/components/auth/RegisterContainer.tsx:71 | every string with `EmailShape` is accepted by the email pattern |
| `Registration.Reclassify` | resources/scripts/components/auth/RegisterContainer.tsx:66-72 | a malformed echoed email gives the email message, even when the username is malformed too; a well-formed email with a malformed username gives the username message; with both well formed, the HTTP error object is kept; so a message string is shown exactly when one of the two fields is malformed |
| `Registration.ShowError` | resources/scripts/components/auth/RegisterContainer.tsx:74-82 | the error is the last flash on screen; a message string keeps the earlier flashes before it, and an error object replaces them all |
| `Registration.SubmitHandler` | resources/scripts/components/auth/RegisterContainer.tsx:32-48 | `onSubmit` clears the flashes and makes exactly one call: `execute()` exactly when the challenge is enabled and no token is held, otherwise one `register` call carrying the values and the current token; token, `submitting` and resets are unchanged |
| `Registration.SubmitAttempt` | resources/scripts/components/auth/RegisterContainer.tsx:87-95 | the form ends up submitting exactly when every required field is filled (`RequiredFilled`, the schema at lines 90-95); then exactly one call is made and the flashes are cleared, otherwise no call is made and the flashes are kept; token and resets are unchanged |
| `Registration.Next` | resources/scripts/components/auth/RegisterContainer.tsx:32-155 | any event makes at most one outgoing call, and only a click, a submit or a solved challenge makes one; a new `register` call carries the token held at that moment (the delivered one for a solved challenge); the widget is reset exactly on a rejection while it is rendered; the token is kept, emptied, or replaced by the delivered one; only a click, a submit or a solved challenge can set `submitting` to true |
| `Registration.Run` | resources/scripts/components/auth/RegisterContainer.tsx:23-155 | over any sequence of events the `register`, `execute()` and `reset()` logs only grow |
| `Registration.MissingFieldBlocksSubmit` | resources/scripts/components/auth/RegisterContainer.tsx:90-95 | with any of the four fields empty, a submit, a click on the enabled button or a resubmission after a solved challenge makes no `register` call and no `execute`, keeps the flashes, and leaves the form not submitting |
| `Registration.SubmitDefersToChallenge` | resources/scripts/components/auth/RegisterContainer.tsx:33-46 | with the challenge enabled and no token, a submit makes exactly one `execute`, no `register` call, clears the flashes, keeps the token, and the form stays submitting |
| `Registration.SubmitCallsRegister` | resources/scripts/components/auth/RegisterContainer.tsx:33-48 | with the challenge disabled or a token held, a submit makes exactly one `register` call, with the values and the current token as `recaptchaData`, and no `execute` |
| `Registration.PressIgnoredWhileSubmitting` | resources/scripts/components/auth/RegisterContainer.tsx:138 | while the form is submitting, a click on the disabled button changes nothing |
| `Registration.ResolvedOutcome` | resources/scripts/components/auth/RegisterContainer.tsx:49-59 | a `complete` response appends exactly one success flash and ends submitting; an incomplete one changes nothing, so the form stays submitting |
| `Registration.RejectedOutcome` | resources/scripts/components/auth/RegisterContainer.tsx:60-83 | every rejection empties the token, resets the widget exactly when it is rendered, and ends submitting; then the email message is appended if the echoed email is malformed, else the username message if the echoed username is, else the HTTP error object replaces the flashes through `clearAndAddHttpError` |
| `Registration.ExecuteFailedOutcome` | resources/scripts/components/auth/RegisterContainer.tsx:38-43 | a rejected `execute()` ends submitting and replaces the flashes with that error; the token is unchanged |
| `Registration.ExpiredOutcome` | resources/scripts/components/auth/RegisterContainer.tsx:152-155 | an expired challenge always ends submitting and empties the token; nothing else changes |
| `Registration.SolvedResubmitsWithToken` | resources/scripts/components/auth/RegisterContainer.tsx:148-151 | a solved challenge stores the token first, so the resubmission sends exactly one `register` call carrying that token; it makes no `execute` and no `reset`, clears the flashes, and the form stays submitting |
| `Registration.RejectionForcesNewChallenge` | resources/scripts/components/auth/RegisterContainer.tsx:37-64 | with the challenge enabled, a submit right after a rejection asks for a new token and does not register |
| `Registration.ExpiryAllowsSecondPendingRegister` | resources/scripts/components/auth/RegisterContainer.tsx:138-155 | with the challenge enabled and the fields filled, the events click, solve `t`, expire, click, solve `u` make two `register` calls, carrying `t` and then `u`, with no settlement of the first one in between: `onExpire` ends submitting while the first call is pending, which enables the button again |
| `Registration.BadUsernameReported` | resources/scripts/components/auth/RegisterContainer.tsx:68-79 | a rejection echoing the username `bad user!` and the email `user@example.com` shows the username message |
| `Registration.NotAnEmailReported` | resources/scripts/components/auth/RegisterContainer.tsx:71-79 | a rejection echoing the email `not-an-email` shows the email message, whatever the username |
| `Registration.WellFormedKeepsRawError` | resources/scripts/components/auth/RegisterContainer.tsx:66-82 | with the well-formed username `jean.dupont` and email `jean@example.fr`, the HTTP error object reaches `clearAndAddHttpError` unchanged |
| `Registration.NextKeepsTokensSourced` | resources/scripts/components/auth/RegisterContainer.tsx:23-155 | one transition keeps the invariant that the held token and every sent token were delivered by the widget, and that with the challenge enabled no `register` call goes out with an empty token |
| `Registration.RunKeepsTokensSourced` | resources/scripts/components/auth/RegisterContainer.tsx:23-155 | the same invariant holds after any sequence of events |
| `Registration.TokensComeFromChallenge` | resources/scripts/components/auth/RegisterContainer.tsx:23-155 | from mount on, every token held or sent came from `onVerify`, and with the challenge enabled every `register` call carries a non-empty token |
| `Registration.Controller.constructor` | resources/scripts/components/auth/RegisterContainer.tsx:23-30 | mounting gives an empty token, a form that is not submitting, cleared flashes and no calls |
| `Registration.Controller.OnSubmit` | resources/scripts/components/auth/RegisterContainer.tsx:32-48 | clears the flashes, then either calls `execute()` or logs one `register` call with the current token, as `SubmitHandler` defines |
| `Registration.Controller.SubmitForm` | resources/scripts/components/auth/RegisterContainer.tsx:87-95 | marks the form submitting and runs `OnSubmit` only when every required field is filled; otherwise it ends submitting |
| `Registration.Controller.PressSubmit` | resources/scripts/components/auth/RegisterContainer.tsx:138 | submits only when the form is not already submitting |
| `Registration.Controller.OnExecuteRejected` | resources/scripts/components/auth/RegisterContainer.tsx:38-43 | the new state is the `ExecuteFailed` transition of the old one |
| `Registration.Controller.OnRegisterResolved` | resources/scripts/components/auth/RegisterContainer.tsx:49-59 | the new state is the `RegisterResolved` transition of the old one |
| `Registration.Controller.OnRegisterRejected` | resources/scripts/components/auth/RegisterContainer.tsx:60-83 | starts from the HTTP error object, runs the two checks in source order, each overwriting it with its message, and routes a message to `addFlash` and the object to `clearAndAddHttpError`; the new state is the `RegisterRejected` transition |
| `Registration.Controller.OnVerify` | resources/scripts/components/auth/RegisterContainer.tsx:148-151 | stores the token and then calls `SubmitForm`; the new state is the `ChallengeSolved` transition |
| `Registration.Controller.OnExpire` | resources/scripts/components/auth/RegisterContainer.tsx:152-155 | the new state is the `ChallengeExpired` transition |
| `Registration.Controller.Handle` | resources/scripts/components/auth/RegisterContainer.tsx:32-155 | delivering any event changes the state exactly as `Next` does, so every property of `Run` holds for the component |

## Left out

- Rendering, styling, links and the French and English texts. The messages are
  included only as string constants.
- The form library's internals. The required check is the predicate
  `RequiredFilled`: non-empty, with white-space-only values counting as filled.
  The touched and error bookkeeping of the form library is not modelled.
- React state and effect scheduling, and promise timing. Each continuation is a
  separate event, applied atomically. `setToken` in `onVerify` is taken to be
  visible to the resubmission that follows it.
- The bodies of `register`, of the widget's `execute()` and `reset()`, and of
  the settings store. The calls are logged. `recaptchaEnabled` is a constructor
  parameter. The widget's ref is taken to exist exactly when the challenge is
  enabled, since that is when the widget is rendered. The site key only
  configures the widget and is left out.
- `JSON.parse(error.config.data)`. A rejection of `register` is always an HTTP
  error object (`errorId`) whose echoed body is the `Request` record, so before
  the checks the error is never a string. A rejection without `config.data`,
  a string among them, makes the parse throw after the token is emptied and the
  widget reset, and leaves the form submitting; that case is not modelled.
  Nothing ties the echoed request to an earlier `register` call.
- Pending calls are not tracked. Outcome events may answer calls that were
  never made, and nothing limits how many `register` calls are outstanding. So
  the model neither proves nor refutes that only one submission is in flight at
  a time. `ExpiryAllowsSecondPendingRegister` shows the component itself allows
  a second call while the first is pending.
- Error objects are opaque: `Thrown(id)` stands for the object `id`. `console.error` logging is left out.
- JavaScript strings are UTF-16 and the patterns have no `u` flag. The model
  uses Unicode scalar values instead. Both halves of a surrogate pair fall in
  the same classes as the code point they encode (not white space, not `@`, not
  alphanumeric). So both patterns accept the same strings either way.
- The flash store's keys. The controller's flash list stands for everything
  the store shows.
