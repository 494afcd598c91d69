/** The submission controller of the registration form.

    Its observable state is the challenge token, the form's `submitting` flag,
    the flash messages on screen, and a log of the calls it makes to its two
    collaborators: the registration endpoint and the challenge widget's
    `execute` and `reset`. Every asynchronous continuation (a promise that
    resolves or rejects, a callback of the widget) is a separate `Event`.

    `Next` is the reference definition of one transition; `Controller` is the
    component with mutable fields whose event handlers update that state step
    by step, each proved to agree with `Next`.
 */
module Registration {
  import opened Validators

  /** The four form fields. */
  datatype Values = Values(email: string, username: string, firstname: string, lastname: string)

  /** The body sent to the registration endpoint: the field values and the
      challenge token as `recaptchaData`. A rejected call echoes it back. */
  datatype Request = Request(values: Values, recaptchaData: string)

  /** What an error is shown as: a message string, or an error object that a
      promise rejected with, identified only by `id`. */
  datatype ErrorValue = Text(text: string) | Thrown(id: nat)

  datatype FlashKind = SuccessFlash | ErrorFlash

  datatype Flash =
    | Notice(kind: FlashKind, title: string, message: string)  // addFlash
    | HttpError(error: ErrorValue)                             // clearAndAddHttpError

  const SuccessTitle := "Succès"
  const SuccessMessage := "Vous vous êtes inscrit avec succès, vérifiez votre email"
  const ErrorTitle := "Error"
  const UsernameMessage :=
    "Le nom d'utilisateur doit commencer et se terminer par des caractères alphanumériques et ne contenir que des lettres, des chiffres, des tirets, des underscores et des points."
  const EmailMessage := "The email must be a valid email address."

  datatype State = State(
    token: string,
    submitting: bool,
    flashes: seq<Flash>,
    registerCalls: seq<Request>,
    executeCalls: nat,
    resetCalls: nat)

  /** After mounting: no token, not submitting, flashes cleared, no calls. */
  const Initial := State("", false, [], [], 0, 0)

  datatype Event =
    | Press(values: Values)                           // a click on the submit button
    | Submit(values: Values)                          // the form library's submitForm
    | ExecuteFailed(error: ErrorValue)                // execute() rejected
    | RegisterResolved(complete: bool)                // register(...) resolved
    | RegisterRejected(request: Request, errorId: nat)  // register(...) rejected with HTTP error object `errorId`
    | ChallengeSolved(response: string, values: Values)      // the widget's onVerify
    | ChallengeExpired                                // the widget's onExpire

  /** The required-field rule of the form's validation schema. */
  predicate RequiredFilled(v: Values) {
    v.email != "" && v.username != "" && v.firstname != "" && v.lastname != ""
  }

  /** What a rejection with the error object `errorId` is shown as: the
      username check may replace it by a message, and the email check, which
      runs afterwards, may replace it again. A message is shown exactly when
      one of the two echoed fields is malformed. */
  function Reclassify(request: Request, errorId: nat): (shown: ErrorValue)
    ensures !EmailShape(request.values.email) ==> shown == Text(EmailMessage)
    ensures EmailShape(request.values.email) && !UsernameShape(request.values.username) ==>
              shown == Text(UsernameMessage)
    ensures EmailShape(request.values.email) && UsernameShape(request.values.username) ==>
              shown == Thrown(errorId)
    ensures shown.Text? <==> !EmailShape(request.values.email) || !UsernameShape(request.values.username)
  {
    var afterUsername := if !IsValidUsername(request.values.username) then Text(UsernameMessage) else Thrown(errorId);
    if !IsValidEmail(request.values.email) then Text(EmailMessage) else afterUsername
  }

  /** The flash list after showing `shown`: a string goes to addFlash, which
      appends; anything else to clearAndAddHttpError, which replaces. */
  function ShowError(flashes: seq<Flash>, shown: ErrorValue): (r: seq<Flash>)
    // the error is on screen last; a message keeps what was shown before it,
    // an error object replaces everything
    ensures |r| > 0 && r[|r| - 1] == (if shown.Text? then Notice(ErrorFlash, ErrorTitle, shown.text) else HttpError(shown))
    ensures shown.Text? ==> r[..|r| - 1] == flashes
    ensures shown.Thrown? ==> |r| == 1
  {
    match shown
    case Text(m) => flashes + [Notice(ErrorFlash, ErrorTitle, m)]
    case Thrown(_) => [HttpError(shown)]
  }

  /** The synchronous part of `onSubmit`: it clears the flashes and makes
      exactly one call, `execute()` when the challenge is enabled and no token
      is held, else `register` with the current token. */
  function SubmitHandler(s: State, recaptchaEnabled: bool, v: Values): (t: State)
    ensures t.flashes == []
    ensures t.token == s.token && t.submitting == s.submitting && t.resetCalls == s.resetCalls
    ensures t.executeCalls + |t.registerCalls| == s.executeCalls + |s.registerCalls| + 1
    ensures t.executeCalls > s.executeCalls <==> recaptchaEnabled && s.token == ""
    ensures s.registerCalls <= t.registerCalls && s.executeCalls <= t.executeCalls
    ensures |t.registerCalls| > |s.registerCalls| ==> t.registerCalls[|s.registerCalls|] == Request(v, s.token)
  {
    if recaptchaEnabled && s.token == "" then
      s.(flashes := [], executeCalls := s.executeCalls + 1)
    else
      s.(flashes := [], registerCalls := s.registerCalls + [Request(v, s.token)])
  }

  /** submitForm: mark the form submitting, check the required fields, and run
      `onSubmit` only when they pass. */
  function SubmitAttempt(s: State, recaptchaEnabled: bool, v: Values): (t: State)
    ensures t.submitting == RequiredFilled(v)
    ensures t.token == s.token && t.resetCalls == s.resetCalls
    ensures s.registerCalls <= t.registerCalls && s.executeCalls <= t.executeCalls
    ensures t.executeCalls + |t.registerCalls| ==
            s.executeCalls + |s.registerCalls| + (if RequiredFilled(v) then 1 else 0)
    ensures t.flashes == (if RequiredFilled(v) then [] else s.flashes)
  {
    if RequiredFilled(v) then SubmitHandler(s.(submitting := true), recaptchaEnabled, v)
    else s.(submitting := false)
  }

  /** One transition. The widget is rendered, and so can be reset, exactly when
      the challenge is enabled. */
  function Next(s: State, recaptchaEnabled: bool, e: Event): (t: State)
    // at most one outgoing call, and only from a submission
    ensures s.registerCalls <= t.registerCalls && s.executeCalls <= t.executeCalls
    ensures t.executeCalls + |t.registerCalls| <= s.executeCalls + |s.registerCalls| + 1
    ensures !(e.Press? || e.Submit? || e.ChallengeSolved?) ==>
              t.registerCalls == s.registerCalls && t.executeCalls == s.executeCalls
    // a new registration call carries the token held when it is made
    ensures |t.registerCalls| > |s.registerCalls| ==>
              t.registerCalls[|s.registerCalls|].recaptchaData == (if e.ChallengeSolved? then e.response else s.token)
    // the widget is reset exactly on a rejection while it is rendered
    ensures t.resetCalls == s.resetCalls + (if e.RegisterRejected? && recaptchaEnabled then 1 else 0)
    // the token is kept, dropped, or replaced by the one the widget delivered
    ensures t.token == s.token || t.token == "" || (e.ChallengeSolved? && t.token == e.response)
    // only a click, a submit or a solved challenge can set submitting to true
    ensures t.submitting ==> s.submitting || e.Press? || e.Submit? || e.ChallengeSolved?
  {
    match e
    case Press(v) => if s.submitting then s else SubmitAttempt(s, recaptchaEnabled, v)
    case Submit(v) => SubmitAttempt(s, recaptchaEnabled, v)
    case ExecuteFailed(error) => s.(submitting := false, flashes := [HttpError(error)])
    case RegisterResolved(complete) =>
      if complete then
        s.(flashes := s.flashes + [Notice(SuccessFlash, SuccessTitle, SuccessMessage)], submitting := false)
      else s
    case RegisterRejected(request, errorId) =>
      s.(token := "",
         resetCalls := if recaptchaEnabled then s.resetCalls + 1 else s.resetCalls,
         submitting := false,
         flashes := ShowError(s.flashes, Reclassify(request, errorId)))
    case ChallengeSolved(response, v) => SubmitAttempt(s.(token := response), recaptchaEnabled, v)
    case ChallengeExpired => s.(submitting := false, token := "")
  }

  /** The state after a sequence of events. */
  function Run(s: State, recaptchaEnabled: bool, events: seq<Event>): (t: State)
    // the call logs only grow
    ensures s.registerCalls <= t.registerCalls && s.executeCalls <= t.executeCalls
    ensures s.resetCalls <= t.resetCalls
    decreases |events|
  {
    if events == [] then s else Run(Next(s, recaptchaEnabled, events[0]), recaptchaEnabled, events[1..])
  }

  // ---------------------------------------------------------------------------
  // Properties of single transitions

  /** A form with an empty required field never reaches `onSubmit`: no call is
      made, the token is kept and the form is not left submitting. */
  lemma MissingFieldBlocksSubmit(s: State, recaptchaEnabled: bool, e: Event)
    requires e.Submit? || e.Press? || e.ChallengeSolved?
    requires !RequiredFilled(e.values)
    requires e.Press? ==> !s.submitting
    ensures var t := Next(s, recaptchaEnabled, e);
      t.registerCalls == s.registerCalls && t.executeCalls == s.executeCalls &&
      t.resetCalls == s.resetCalls && t.flashes == s.flashes && !t.submitting &&
      t.token == (if e.ChallengeSolved? then e.response else s.token)
  {
  }

  /** With the challenge enabled and no token, submitting only asks the widget
      for a token: one execute, no registration call, the flashes cleared, the
      token kept, and the form still submitting. */
  lemma SubmitDefersToChallenge(s: State, v: Values)
    requires RequiredFilled(v) && s.token == ""
    ensures var t := Next(s, true, Submit(v));
      t.executeCalls == s.executeCalls + 1 && t.registerCalls == s.registerCalls &&
      t.token == s.token && t.flashes == [] && t.submitting && t.resetCalls == s.resetCalls
  {
  }

  /** With the challenge disabled or a token held, submitting makes exactly one
      registration call, carrying the current token. */
  lemma SubmitCallsRegister(s: State, recaptchaEnabled: bool, v: Values)
    requires RequiredFilled(v) && (!recaptchaEnabled || s.token != "")
    ensures var t := Next(s, recaptchaEnabled, Submit(v));
      t.registerCalls == s.registerCalls + [Request(v, s.token)] &&
      t.executeCalls == s.executeCalls && t.token == s.token &&
      t.flashes == [] && t.submitting && t.resetCalls == s.resetCalls
  {
  }

  /** The submit button does nothing while the form is submitting. */
  lemma PressIgnoredWhileSubmitting(s: State, recaptchaEnabled: bool, v: Values)
    requires s.submitting
    ensures Next(s, recaptchaEnabled, Press(v)) == s
  {
  }

  /** A completed registration adds one success flash and ends submitting; an
      incomplete one changes nothing. */
  lemma ResolvedOutcome(s: State, recaptchaEnabled: bool, complete: bool)
    ensures var t := Next(s, recaptchaEnabled, RegisterResolved(complete));
      (complete ==> t == s.(flashes := s.flashes + [Notice(SuccessFlash, SuccessTitle, SuccessMessage)],
                            submitting := false)) &&
      (!complete ==> t == s)
  {
  }

  /** Every rejection drops the token, resets the widget when there is one, ends
      submitting, and shows: the email message if the echoed email is malformed,
      else the username message if the echoed username is, else the error
      object itself, through the HTTP error display that replaces the flashes. */
  lemma RejectedOutcome(s: State, recaptchaEnabled: bool, request: Request, errorId: nat)
    ensures var t := Next(s, recaptchaEnabled, RegisterRejected(request, errorId));
      t.token == "" && !t.submitting &&
      t.resetCalls == s.resetCalls + (if recaptchaEnabled then 1 else 0) &&
      t.registerCalls == s.registerCalls && t.executeCalls == s.executeCalls
    ensures var t := Next(s, recaptchaEnabled, RegisterRejected(request, errorId));
      var email, username := request.values.email, request.values.username;
      (!EmailShape(email) ==> t.flashes == s.flashes + [Notice(ErrorFlash, ErrorTitle, EmailMessage)]) &&
      (EmailShape(email) && !UsernameShape(username) ==>
         t.flashes == s.flashes + [Notice(ErrorFlash, ErrorTitle, UsernameMessage)]) &&
      (EmailShape(email) && UsernameShape(username) ==>
         t.flashes == [HttpError(Thrown(errorId))])
  {
  }

  /** A failed execute ends submitting and shows the error; the token stays. */
  lemma ExecuteFailedOutcome(s: State, recaptchaEnabled: bool, error: ErrorValue)
    ensures Next(s, recaptchaEnabled, ExecuteFailed(error))
         == s.(submitting := false, flashes := [HttpError(error)])
  {
  }

  /** An expired challenge always ends submitting and drops the token. */
  lemma ExpiredOutcome(s: State, recaptchaEnabled: bool)
    ensures var t := Next(s, recaptchaEnabled, ChallengeExpired);
      !t.submitting && t.token == "" && t == s.(submitting := false, token := "")
  {
  }

  /** A solved challenge stores the token before resubmitting, so the
      resubmission carries the new token. */
  lemma SolvedResubmitsWithToken(s: State, recaptchaEnabled: bool, response: string, v: Values)
    requires RequiredFilled(v) && response != ""
    ensures var t := Next(s, recaptchaEnabled, ChallengeSolved(response, v));
      t.token == response && t.registerCalls == s.registerCalls + [Request(v, response)] &&
      t.executeCalls == s.executeCalls && t.submitting &&
      t.flashes == [] && t.resetCalls == s.resetCalls
  {
  }

  /** A rejected submission invalidates the token: with the challenge enabled,
      the next attempt asks for a new token instead of registering. */
  lemma RejectionForcesNewChallenge(s: State, request: Request, errorId: nat, v: Values)
    requires RequiredFilled(v)
    ensures var t := Run(s, true, [RegisterRejected(request, errorId), Submit(v)]);
      t.executeCalls == s.executeCalls + 1 && t.registerCalls == s.registerCalls && t.token == ""
  {
    var events := [RegisterRejected(request, errorId), Submit(v)];
    var s1 := Next(s, true, events[0]);
    assert events[1..] == [Submit(v)];
    assert Run(s1, true, [Submit(v)]) == Run(Next(s1, true, Submit(v)), true, []);
  }

  /** Nothing tracks a pending `register` call: an expiry while it is pending
      ends submitting, which enables the button again, so a second call can go
      out before the first one settles. */
  lemma ExpiryAllowsSecondPendingRegister(v: Values)
    requires RequiredFilled(v)
    ensures Run(Initial, true, [Press(v), ChallengeSolved("t", v), ChallengeExpired, Press(v), ChallengeSolved("u", v)])
              .registerCalls == [Request(v, "t"), Request(v, "u")]
  {
    var events := [Press(v), ChallengeSolved("t", v), ChallengeExpired, Press(v), ChallengeSolved("u", v)];
    var s1 := Next(Initial, true, events[0]);
    assert s1.submitting && s1.token == "" && s1.registerCalls == [];
    var s2 := Next(s1, true, events[1]);
    assert s2.registerCalls == [Request(v, "t")];
    var s3 := Next(s2, true, events[2]);
    assert !s3.submitting && s3.token == "";
    var s4 := Next(s3, true, events[3]);
    assert s4.registerCalls == [Request(v, "t")];
    var s5 := Next(s4, true, events[4]);
    assert s5.registerCalls == [Request(v, "t"), Request(v, "u")];
    assert events[1..] == events[1..2] + events[2..];
    assert Run(Initial, true, events) == Run(s1, true, events[1..]);
    assert Run(s1, true, events[1..]) == Run(s2, true, events[2..]);
    assert Run(s2, true, events[2..]) == Run(s3, true, events[3..]);
    assert Run(s3, true, events[3..]) == Run(s4, true, events[4..]);
    assert Run(s4, true, events[4..]) == Run(s5, true, []);
  }

  // ---------------------------------------------------------------------------
  // Examples of the classification

  /** A word of lower-case ASCII letters is drawn from `[^\s@]`. */
  lemma PlainPart(s: string)
    requires forall c :: c in s ==> 'a' <= c <= 'z'
    ensures AllIn(NotSpaceOrAt, s)
  {
    forall i | 0 <= i < |s| ensures InClass(NotSpaceOrAt, s[i]) {
      assert s[i] in s;
    }
  }

  /** An address made of three non-empty lower-case words, `local@host.top`,
      is well formed. */
  lemma LowerCaseEmailShaped(local: string, host: string, top: string)
    requires |local| > 0 && |host| > 0 && |top| > 0
    requires forall c :: c in local ==> 'a' <= c <= 'z'
    requires forall c :: c in host ==> 'a' <= c <= 'z'
    requires forall c :: c in top ==> 'a' <= c <= 'z'
    ensures EmailShape(local + "@" + host + "." + top)
  {
    PlainPart(local);
    PlainPart(host);
    PlainPart(top);
    EmailFromParts(local, host, top);
  }

  lemma UserAtExampleComShaped()
    ensures EmailShape("user@example.com")
  {
    LowerCaseEmailShaped("user", "example", "com");
    assert "user" + "@" + "example" + "." + "com" == "user@example.com";
  }

  lemma JeanAtExampleFrShaped()
    ensures EmailShape("jean@example.fr")
  {
    LowerCaseEmailShaped("jean", "example", "fr");
    assert "jean" + "@" + "example" + "." + "fr" == "jean@example.fr";
  }

  /** The space at position 3 is not allowed in a username. */
  lemma BadUserNotShaped()
    ensures !UsernameShape("bad user!")
  {
    assert !IsUsernameChar("bad user!"[3]);
  }

  /** An address without `@` has no position for it. */
  lemma NotAnEmailNotShaped()
    ensures !EmailShape("not-an-email")
  {
    var email := "not-an-email";
    assert '@' !in email;
    forall k | 0 <= k < |email| ensures email[k] != '@' {
      assert email[k] in email;
    }
  }

  lemma JeanDupontShaped()
    ensures UsernameShape("jean.dupont")
  {
    var username := "jean.dupont";
    forall i | 0 <= i < |username| ensures IsUsernameChar(username[i]) {
      assert username[i] in username;
    }
  }

  /** A username with a space is reported with the username message when the
      email is well formed. */
  lemma BadUsernameReported(s: State, recaptchaEnabled: bool, request: Request, errorId: nat)
    requires request.values.username == "bad user!" && request.values.email == "user@example.com"
    ensures Next(s, recaptchaEnabled, RegisterRejected(request, errorId)).flashes
              == s.flashes + [Notice(ErrorFlash, ErrorTitle, UsernameMessage)]
  {
    UserAtExampleComShaped();
    BadUserNotShaped();
  }

  /** An address without `@` is reported with the email message, whatever the
      username. */
  lemma NotAnEmailReported(s: State, recaptchaEnabled: bool, request: Request, errorId: nat)
    requires request.values.email == "not-an-email"
    ensures Next(s, recaptchaEnabled, RegisterRejected(request, errorId)).flashes
              == s.flashes + [Notice(ErrorFlash, ErrorTitle, EmailMessage)]
  {
    NotAnEmailNotShaped();
  }

  /** With a well-formed username and email, the error object reaches the
      generic HTTP error display, which replaces the flashes. */
  lemma WellFormedKeepsRawError(s: State, recaptchaEnabled: bool, request: Request, errorId: nat)
    requires request.values.username == "jean.dupont" && request.values.email == "jean@example.fr"
    ensures Next(s, recaptchaEnabled, RegisterRejected(request, errorId)).flashes == [HttpError(Thrown(errorId))]
  {
    JeanAtExampleFrShaped();
    JeanDupontShaped();
  }

  // ---------------------------------------------------------------------------
  // A property of whole runs: where tokens come from

  /** The tokens that `onVerify` delivered during `events`. */
  function SolvedTokens(events: seq<Event>): (tokens: set<string>) {
    set i | 0 <= i < |events| && events[i].ChallengeSolved? :: events[i].response
  }

  /** The held token and every token sent were delivered by the widget, and with
      the challenge enabled no registration call goes out without a token. */
  predicate TokensSourced(s: State, recaptchaEnabled: bool, delivered: set<string>) {
    (s.token == "" || s.token in delivered) &&
    forall i :: 0 <= i < |s.registerCalls| ==>
      (s.registerCalls[i].recaptchaData == "" || s.registerCalls[i].recaptchaData in delivered) &&
      (recaptchaEnabled ==> s.registerCalls[i].recaptchaData != "")
  }

  lemma NextKeepsTokensSourced(s: State, recaptchaEnabled: bool, e: Event, delivered: set<string>)
    requires TokensSourced(s, recaptchaEnabled, delivered)
    requires e.ChallengeSolved? ==> e.response in delivered
    ensures TokensSourced(Next(s, recaptchaEnabled, e), recaptchaEnabled, delivered)
  {
  }

  lemma {:induction false} RunKeepsTokensSourced(s: State, recaptchaEnabled: bool, events: seq<Event>, delivered: set<string>)
    requires TokensSourced(s, recaptchaEnabled, delivered)
    requires forall i :: 0 <= i < |events| && events[i].ChallengeSolved? ==> events[i].response in delivered
    ensures TokensSourced(Run(s, recaptchaEnabled, events), recaptchaEnabled, delivered)
    decreases |events|
  {
    if events != [] {
      NextKeepsTokensSourced(s, recaptchaEnabled, events[0], delivered);
      assert forall i :: 0 <= i < |events[1..]| ==> events[1..][i] == events[i + 1];
      RunKeepsTokensSourced(Next(s, recaptchaEnabled, events[0]), recaptchaEnabled, events[1..], delivered);
    }
  }

  /** From mount on, every token held or sent came from the widget, and with the
      challenge enabled every registration call carries one. */
  lemma TokensComeFromChallenge(recaptchaEnabled: bool, events: seq<Event>)
    ensures TokensSourced(Run(Initial, recaptchaEnabled, events), recaptchaEnabled, SolvedTokens(events))
  {
    RunKeepsTokensSourced(Initial, recaptchaEnabled, events, SolvedTokens(events));
  }

  // ---------------------------------------------------------------------------
  // The component

  class Controller {
    /** The settings store's `recaptcha.enabled`; the widget is rendered, and
        its ref set, exactly when it holds. */
    const recaptchaEnabled: bool
    var token: string
    var submitting: bool
    var flashes: seq<Flash>
    var registerCalls: seq<Request>
    var executeCalls: nat
    var resetCalls: nat

    function Snapshot(): State
      reads this
    {
      State(token, submitting, flashes, registerCalls, executeCalls, resetCalls)
    }

    /** Mounting: `useState('')`, the form's initial state, and the effect that
        clears the flashes. */
    constructor (recaptchaEnabled: bool)
      ensures this.recaptchaEnabled == recaptchaEnabled && Snapshot() == Initial
    {
      this.recaptchaEnabled := recaptchaEnabled;
      token := "";
      submitting := false;
      registerCalls := [];
      executeCalls := 0;
      resetCalls := 0;
      flashes := [];
    }

    method ClearFlashes()
      modifies this`flashes
      ensures flashes == []
    {
      flashes := [];
    }

    method AddFlash(f: Flash)
      modifies this`flashes
      ensures flashes == old(flashes) + [f]
    {
      flashes := flashes + [f];
    }

    method ClearAndAddHttpError(error: ErrorValue)
      modifies this`flashes
      ensures flashes == [HttpError(error)]
    {
      ClearFlashes();
      flashes := flashes + [HttpError(error)];
    }

    /** `register(...)`: only the call is recorded; its outcome arrives later as
        `OnRegisterResolved` or `OnRegisterRejected`. */
    method Register(request: Request)
      modifies this`registerCalls
      ensures registerCalls == old(registerCalls) + [request]
    {
      registerCalls := registerCalls + [request];
    }

    /** `ref.current.execute()`: its outcome arrives later as `OnVerify`,
        `OnExpire` or `OnExecuteRejected`. */
    method Execute()
      modifies this`executeCalls
      ensures executeCalls == old(executeCalls) + 1
    {
      executeCalls := executeCalls + 1;
    }

    /** `ref.current.reset()`: the widget forgets its response. */
    method Reset()
      modifies this`resetCalls
      ensures resetCalls == old(resetCalls) + 1
    {
      resetCalls := resetCalls + 1;
    }

    method OnSubmit(values: Values)
      modifies this
      ensures Snapshot() == SubmitHandler(old(Snapshot()), recaptchaEnabled, values)
    {
      ClearFlashes();
      if recaptchaEnabled && token == "" {
        Execute();
        return;
      }
      Register(Request(values, token));
    }

    method SubmitForm(values: Values)
      modifies this
      ensures Snapshot() == Next(old(Snapshot()), recaptchaEnabled, Submit(values))
    {
      submitting := true;
      if !RequiredFilled(values) {
        submitting := false;
        return;
      }
      OnSubmit(values);
    }

    method PressSubmit(values: Values)
      modifies this
      ensures Snapshot() == Next(old(Snapshot()), recaptchaEnabled, Press(values))
    {
      if !submitting {
        SubmitForm(values);
      }
    }

    method OnExecuteRejected(error: ErrorValue)
      modifies this
      ensures Snapshot() == Next(old(Snapshot()), recaptchaEnabled, ExecuteFailed(error))
    {
      submitting := false;
      ClearAndAddHttpError(error);
    }

    method OnRegisterResolved(complete: bool)
      modifies this
      ensures Snapshot() == Next(old(Snapshot()), recaptchaEnabled, RegisterResolved(complete))
    {
      if complete {
        AddFlash(Notice(SuccessFlash, SuccessTitle, SuccessMessage));
        submitting := false;
      }
    }

    method OnRegisterRejected(request: Request, errorId: nat)
      modifies this
      ensures Snapshot() == Next(old(Snapshot()), recaptchaEnabled, RegisterRejected(request, errorId))
    {
      token := "";
      if recaptchaEnabled {
        Reset();
      }
      var shown := Thrown(errorId);
      if !IsValidUsername(request.values.username) {
        shown := Text(UsernameMessage);
      }
      if !IsValidEmail(request.values.email) {
        shown := Text(EmailMessage);
      }
      submitting := false;
      if shown.Text? {
        AddFlash(Notice(ErrorFlash, ErrorTitle, shown.text));
      } else {
        ClearAndAddHttpError(shown);
      }
    }

    method OnVerify(response: string, values: Values)
      modifies this
      ensures Snapshot() == Next(old(Snapshot()), recaptchaEnabled, ChallengeSolved(response, values))
    {
      token := response;
      SubmitForm(values);
    }

    method OnExpire()
      modifies this
      ensures Snapshot() == Next(old(Snapshot()), recaptchaEnabled, ChallengeExpired)
    {
      submitting := false;
      token := "";
    }

    /** Delivers one event to its handler. */
    method Handle(e: Event)
      modifies this
      ensures Snapshot() == Next(old(Snapshot()), recaptchaEnabled, e)
    {
      match e
      case Press(v) => PressSubmit(v);
      case Submit(v) => SubmitForm(v);
      case ExecuteFailed(error) => OnExecuteRejected(error);
      case RegisterResolved(complete) => OnRegisterResolved(complete);
      case RegisterRejected(request, errorId) => OnRegisterRejected(request, errorId);
      case ChallengeSolved(response, v) => OnVerify(response, v);
      case ChallengeExpired => OnExpire();
    }
  }
}
