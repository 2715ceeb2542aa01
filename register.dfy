/** The registration form (src/Component/register.js): five text fields and an avatar
    edited by their own setters, and a register handler that raises `isLoading`, POSTs
    the fields unvalidated, lowers `isLoading` again when the request settles, alerts,
    and navigates to the login screen on success only.

    `handleRegister` suspends at two awaits, and each resumption is its own event:
    - RegisterPressed runs it up to `await fetch(...)`: the flag is raised and the
      request sent. The Register button is disabled while `isLoading` is true, so a
      press then is ignored.
    - RequestSettled resumes it when `fetch` settles. On an ok response it lowers the
      flag, alerts and navigates; on a rejection the `catch` lowers the flag and alerts;
      on a non-ok response it lowers the flag and suspends again at
      `await response.text()`, with the alert still to come.
    - BodyTextRead resumes it when that body read settles: it alerts the text, or, if
      the read rejects, the `catch` alerts the error and lowers the flag once more,
      whichever request the flag belongs to by then. */
module Register {
  import opened Assets
  import opened Web

  const ApiUrl := "http://localhost:5555/api/users"
  /** The create endpoint: `apiUrl + 'create'`, with no separator. */
  const RegisterUrl := ApiUrl + "create"
  const LoginScreen := "Login"

  const SuccessAlert := "Registration Successful"
  const FailedPrefix := "Registration Failed: "
  const ErrorPrefix := "Error: "

  /** The JSON body sent: `username` travels as `userName`, the rest under their own names. */
  datatype Body = Body(userName: string, email: string, phone: string, password: string,
                       birthday: string, avatar: Avatar)

  datatype Request = Request(verb: string, url: string, body: Body)

  /** What the handler does at its end: one alert, and possibly a navigation. */
  datatype Reaction = Reaction(alert: string, navigateTo: Option<string>)

  /** How `await fetch(...)` settles: a response, with its `ok`, or a rejection. */
  datatype Settlement = Responded(ok: bool) | FetchRejected(message: string)

  /** How `await response.text()` settles. */
  datatype TextRead = Text(text: string) | TextRejected(message: string)

  /** The component state with logs of its effects: the requests sent, how many of them
      have settled, how many non-ok bodies are still being read, how many body reads
      were rejected, the alerts shown, and the screens `handleRegister` navigated to
      (the separate "Already have an Account?" button is not part of this model). */
  datatype State = State(
    username: string, email: string, phone: string, password: string, birthday: string,
    avatar: Avatar, isLoading: bool,
    requests: seq<Request>, settled: nat, bodyReads: nat, rejectedReads: nat,
    alerts: seq<string>, navigations: seq<string>)

  /** What the user and the network can do to the form. */
  datatype Event =
    | UsernameTyped(text: string)
    | EmailTyped(text: string)
    | PhoneTyped(text: string)
    | PasswordTyped(text: string)
    | BirthdayTyped(text: string)
    | AvatarPressed(choice: Avatar)
    | RegisterPressed
    | RequestSettled(settlement: Settlement)
    | BodyTextRead(read: TextRead)

  const Initial := State("", "", "", "", "", Avatars[0], false, [], 0, 0, 0, [], [])

  function BodyOf(s: State): Body {
    Body(s.username, s.email, s.phone, s.password, s.birthday, s.avatar)
  }

  /** The alert and the navigation for each way the handler can end: an ok response, a
      non-ok response whose body read as `text`, or a rejection caught by the `catch`. */
  function ReactTo(outcome: Outcome<string>): (r: Reaction)
    ensures r.navigateTo.Some? <==> outcome.Ok?
    ensures r.navigateTo.Some? ==> r.navigateTo.value == LoginScreen
    ensures r.alert == SuccessAlert <==> outcome.Ok?
    ensures StartsWith(r.alert, FailedPrefix) <==> outcome.NotOk?
    ensures StartsWith(r.alert, ErrorPrefix) <==> outcome.Threw?
    ensures outcome.NotOk? ==> r.alert[|FailedPrefix|..] == outcome.body
    ensures outcome.Threw? ==> r.alert[|ErrorPrefix|..] == outcome.message
  {
    match outcome
    case Ok =>
      assert SuccessAlert[..|FailedPrefix|][13] == 'S';
      FirstCharDiffers(SuccessAlert, ErrorPrefix);
      Reaction(SuccessAlert, Some(LoginScreen))
    case NotOk(text) => Reaction(Failed(text), None)
    case Threw(message) => Reaction(Caught(message), None)
  }

  function Failed(detail: string): (alert: string)
    ensures StartsWith(alert, FailedPrefix) && alert[|FailedPrefix|..] == detail
    ensures alert != SuccessAlert && !StartsWith(alert, ErrorPrefix)
  {
    var alert := Prefixed(FailedPrefix, detail);
    assert alert[13] == 'F' && SuccessAlert[13] == 'S';
    FirstCharDiffers(alert, ErrorPrefix);
    alert
  }

  function Caught(message: string): (alert: string)
    ensures StartsWith(alert, ErrorPrefix) && alert[|ErrorPrefix|..] == message
    ensures alert != SuccessAlert && !StartsWith(alert, FailedPrefix)
  {
    var alert := Prefixed(ErrorPrefix, message);
    FirstCharDiffers(alert, SuccessAlert);
    FirstCharDiffers(alert, FailedPrefix);
    alert
  }

  /** Shows the reaction's alert and performs its navigation, if any. */
  function Show(s: State, r: Reaction): State {
    s.(alerts := s.alerts + [r.alert],
       navigations := s.navigations + (if r.navigateTo.Some? then [r.navigateTo.value] else []))
  }

  /** `handleRegister` up to `await fetch(...)`: raise the flag and send the current fields. */
  function Start(s: State): State {
    s.(isLoading := true, requests := s.requests + [Request("POST", RegisterUrl, BodyOf(s))])
  }

  /** `handleRegister` resumed when `fetch` settles: the flag is lowered on every path. */
  function Settle(s: State, settlement: Settlement): State {
    var t := s.(isLoading := false, settled := s.settled + 1);
    match settlement
    case Responded(true) => Show(t, ReactTo(Ok))
    case Responded(false) => t.(bodyReads := t.bodyReads + 1)
    case FetchRejected(m) => Show(t, ReactTo(Threw(m)))
  }

  /** `handleRegister` resumed when `response.text()` settles. */
  function ReadBody(s: State, read: TextRead): State
    requires s.bodyReads > 0
  {
    var t := s.(bodyReads := s.bodyReads - 1);
    match read
    case Text(text) => Show(t, ReactTo(NotOk(text)))
    case TextRejected(m) =>
      Show(t.(isLoading := false, rejectedReads := t.rejectedReads + 1), ReactTo(Threw(m)))
  }

  /** One event. A press while loading is ignored (the button is disabled); a request can
      settle only while one is unsettled, and a body read only while one is pending. */
  function Step(s: State, e: Event): State {
    match e
    case UsernameTyped(t) => s.(username := t)
    case EmailTyped(t) => s.(email := t)
    case PhoneTyped(t) => s.(phone := t)
    case PasswordTyped(t) => s.(password := t)
    case BirthdayTyped(t) => s.(birthday := t)
    case AvatarPressed(a) => s.(avatar := a)
    case RegisterPressed => if s.isLoading then s else Start(s)
    case RequestSettled(st) => if s.settled < |s.requests| then Settle(s, st) else s
    case BodyTextRead(r) => if s.bodyReads > 0 then ReadBody(s, r) else s
  }

  function Run(s: State, events: seq<Event>): State
    decreases |events|
  {
    if events == [] then s else Run(Step(s, events[0]), events[1..])
  }

  /** The number of requests that have not settled yet. */
  function Unsettled(s: State): int {
    |s.requests| - s.settled
  }

  /** What holds of the form between events:
      - `isLoading` is true only while a request is unsettled;
      - at most one request is unsettled beyond those the flag lost track of, which
        happens once per rejected body read;
      - every settled request has produced its alert or is still reading its body;
      - every navigation went to the login screen and followed a settled request;
      - every request was a POST to the create endpoint. */
  ghost predicate Consistent(s: State) {
    && s.settled <= |s.requests|
    && (s.isLoading ==> Unsettled(s) >= 1)
    && Unsettled(s) <= (if s.isLoading then 1 else 0) + s.rejectedReads
    && |s.alerts| + s.bodyReads == s.settled
    && |s.navigations| <= s.settled
    && (forall i :: 0 <= i < |s.navigations| ==> s.navigations[i] == LoginScreen)
    && (forall i :: 0 <= i < |s.requests| ==> s.requests[i].verb == "POST" && s.requests[i].url == RegisterUrl)
  }

  lemma InitialIsConsistent()
    ensures Consistent(Initial) && !Initial.isLoading && Initial.rejectedReads == 0
    ensures Initial.username == "" && Initial.email == "" && Initial.phone == ""
    ensures Initial.password == "" && Initial.birthday == "" && Initial.avatar == Avatars[0]
  {
  }

  lemma StepKeepsConsistent(s: State, e: Event)
    requires Consistent(s)
    ensures Consistent(Step(s, e))
  {
  }

  /** Every sequence of events leaves a consistent form behind. */
  lemma {:induction false} RunKeepsConsistent(s: State, events: seq<Event>)
    requires Consistent(s)
    ensures Consistent(Run(s, events))
    decreases |events|
  {
    if events != [] {
      StepKeepsConsistent(s, events[0]);
      RunKeepsConsistent(Step(s, events[0]), events[1..]);
    }
  }

  /** From the initial form, as long as no body read has been rejected, at most one
      request is ever unsettled, and one is unsettled exactly while `isLoading` is true. */
  lemma AtMostOneRequestInFlight(events: seq<Event>)
    ensures Run(Initial, events).rejectedReads == 0 ==>
      Unsettled(Run(Initial, events)) == if Run(Initial, events).isLoading then 1 else 0
  {
    InitialIsConsistent();
    RunKeepsConsistent(Initial, events);
  }

  /** The flag goes down as soon as a non-ok response arrives, before its body is read:
      a press in that gap sends a second POST before the first failure alert. */
  lemma PressBeforeFailureAlert()
    ensures Run(Initial, [RegisterPressed, RequestSettled(Responded(false)), RegisterPressed]).requests
      == [Request("POST", RegisterUrl, BodyOf(Initial)), Request("POST", RegisterUrl, BodyOf(Initial))]
    ensures Run(Initial, [RegisterPressed, RequestSettled(Responded(false)), RegisterPressed]).alerts == []
  {
  }

  /** A rejected body read of an earlier response lowers the flag of a later request that
      is still unsettled, so the button comes back and two requests are unsettled at once. */
  lemma RejectedReadReenablesButton(m: string)
    ensures Unsettled(Run(Initial, [RegisterPressed, RequestSettled(Responded(false)), RegisterPressed,
                                    BodyTextRead(TextRejected(m)), RegisterPressed])) == 2
  {
    var s1 := Step(Initial, RegisterPressed);
    var s2 := Step(s1, RequestSettled(Responded(false)));
    var s3 := Step(s2, RegisterPressed);
    var s4 := Step(s3, BodyTextRead(TextRejected(m)));
    var s5 := Step(s4, RegisterPressed);
    assert !s4.isLoading && |s5.requests| == 3 && s5.settled == 1;
    var events := [RegisterPressed, RequestSettled(Responded(false)), RegisterPressed,
                   BodyTextRead(TextRejected(m)), RegisterPressed];
    assert Run(s5, events[5..]) == s5;
    assert Run(s4, events[4..]) == s5;
    assert Run(s3, events[3..]) == s5;
    assert Run(s2, events[2..]) == s5;
    assert Run(s1, events[1..]) == s5;
  }

  /** Pressing Register while `isLoading` is true sends nothing and changes nothing. */
  lemma PressWhileLoadingIsIgnored(s: State)
    requires s.isLoading
    ensures Step(s, RegisterPressed) == s
  {
  }

  /** `apiUrl + 'create'` glues the segment onto `users` with no separator. */
  lemma RegisterUrlHasNoSeparator()
    ensures RegisterUrl == "http://localhost:5555/api/userscreate"
  {
  }

  /** Pressing Register when idle sends the fields exactly as typed, with no validation,
      to `.../api/userscreate`. */
  lemma PressSendsFieldsVerbatim(s: State)
    requires !s.isLoading
    ensures Step(s, RegisterPressed).isLoading
    ensures Step(s, RegisterPressed).requests == s.requests +
      [Request("POST", "http://localhost:5555/api/userscreate",
               Body(s.username, s.email, s.phone, s.password, s.birthday, s.avatar))]
  {
    RegisterUrlHasNoSeparator();
  }

  /** However an unsettled request settles, `isLoading` is false afterwards. An ok
      response alerts success and navigates to the login screen; a rejection alerts the
      error; a non-ok response alerts nothing yet and starts a body read. */
  lemma SettlingClearsLoading(s: State, st: Settlement)
    requires Consistent(s) && Unsettled(s) > 0
    ensures !Step(s, RequestSettled(st)).isLoading
    ensures Step(s, RequestSettled(st)).settled == s.settled + 1
    ensures st == Responded(true) ==>
      Step(s, RequestSettled(st)).alerts == s.alerts + [SuccessAlert] &&
      Step(s, RequestSettled(st)).navigations == s.navigations + [LoginScreen]
    ensures st.FetchRejected? ==>
      Step(s, RequestSettled(st)).alerts == s.alerts + [ErrorPrefix + st.message] &&
      Step(s, RequestSettled(st)).navigations == s.navigations
    ensures st == Responded(false) ==>
      Step(s, RequestSettled(st)).alerts == s.alerts &&
      Step(s, RequestSettled(st)).bodyReads == s.bodyReads + 1 &&
      Step(s, RequestSettled(st)).navigations == s.navigations
  {
  }

  /** Reading a non-ok body ends in one alert and no navigation: the body text after
      "Registration Failed: ", or the read's error after "Error: ". Only a rejected read
      touches the flag, lowering it. */
  lemma BodyReadAlertsOnce(s: State, r: TextRead)
    requires Consistent(s) && s.bodyReads > 0
    ensures Step(s, BodyTextRead(r)).bodyReads == s.bodyReads - 1
    ensures Step(s, BodyTextRead(r)).navigations == s.navigations
    ensures r.Text? ==>
      Step(s, BodyTextRead(r)).alerts == s.alerts + [FailedPrefix + r.text] &&
      Step(s, BodyTextRead(r)).isLoading == s.isLoading
    ensures r.TextRejected? ==>
      Step(s, BodyTextRead(r)).alerts == s.alerts + [ErrorPrefix + r.message] &&
      !Step(s, BodyTextRead(r)).isLoading
  {
  }

  /** Each setter changes its own field and nothing else. */
  lemma SettersAreIndependent(s: State, t: string, a: Avatar)
    ensures Step(s, UsernameTyped(t)) == s.(username := t)
    ensures Step(s, EmailTyped(t)) == s.(email := t)
    ensures Step(s, PhoneTyped(t)) == s.(phone := t)
    ensures Step(s, PasswordTyped(t)) == s.(password := t)
    ensures Step(s, BirthdayTyped(t)) == s.(birthday := t)
    ensures Step(s, AvatarPressed(a)) == s.(avatar := a)
  {
  }

  /** The component itself: its seven state variables and the effect logs. */
  class RegisterForm {
    var username: string
    var email: string
    var phone: string
    var password: string
    var birthday: string
    var avatar: Avatar
    var isLoading: bool
    var requests: seq<Request>
    var settled: nat
    var bodyReads: nat
    var rejectedReads: nat
    var alerts: seq<string>
    var navigations: seq<string>

    function Snapshot(): State
      reads this
    {
      State(username, email, phone, password, birthday, avatar, isLoading,
            requests, settled, bodyReads, rejectedReads, alerts, navigations)
    }

    ghost predicate Valid()
      reads this
    {
      Consistent(Snapshot())
    }

    constructor ()
      ensures Valid()
      ensures Snapshot() == Initial
    {
      username, email, phone, password, birthday := "", "", "", "", "";
      avatar := Avatars[0];
      isLoading := false;
      requests, settled, bodyReads, rejectedReads := [], 0, 0, 0;
      alerts, navigations := [], [];
    }

    method SetUsername(t: string)
      requires Valid()
      modifies this`username
      ensures Valid()
      ensures Snapshot() == Step(old(Snapshot()), UsernameTyped(t))
    {
      username := t;
    }

    method SetEmail(t: string)
      requires Valid()
      modifies this`email
      ensures Valid()
      ensures Snapshot() == Step(old(Snapshot()), EmailTyped(t))
    {
      email := t;
    }

    method SetPhone(t: string)
      requires Valid()
      modifies this`phone
      ensures Valid()
      ensures Snapshot() == Step(old(Snapshot()), PhoneTyped(t))
    {
      phone := t;
    }

    method SetPassword(t: string)
      requires Valid()
      modifies this`password
      ensures Valid()
      ensures Snapshot() == Step(old(Snapshot()), PasswordTyped(t))
    {
      password := t;
    }

    method SetBirthday(t: string)
      requires Valid()
      modifies this`birthday
      ensures Valid()
      ensures Snapshot() == Step(old(Snapshot()), BirthdayTyped(t))
    {
      birthday := t;
    }

    /** Stores the chosen avatar as given. */
    method HandleAvatarChange(a: Avatar)
      requires Valid()
      modifies this`avatar
      ensures Valid()
      ensures Snapshot() == Step(old(Snapshot()), AvatarPressed(a))
    {
      avatar := a;
    }

    /** `handleRegister` up to `await fetch(...)`. Its only caller is the Register
        button, which is disabled while `isLoading` is true. */
    method HandleRegister()
      requires Valid() && !isLoading
      modifies this`isLoading, this`requests
      ensures Valid() && isLoading
      ensures Snapshot() == Start(old(Snapshot()))
    {
      isLoading := true;
      var body := Body(username, email, phone, password, birthday, avatar);
      requests := requests + [Request("POST", ApiUrl + "create", body)];
      StepKeepsConsistent(old(Snapshot()), RegisterPressed);
    }

    /** The Register button: `onPress={handleRegister}` with `disabled={isLoading}`. */
    method Press()
      requires Valid()
      modifies this`isLoading, this`requests
      ensures Valid()
      ensures Snapshot() == Step(old(Snapshot()), RegisterPressed)
      ensures old(isLoading) ==> requests == old(requests)
    {
      if !isLoading {
        HandleRegister();
      }
    }

    /** `handleRegister` resumed when the unsettled `fetch` settles. */
    method ResumeAfterFetch(settlement: Settlement)
      requires Valid() && settled < |requests|
      modifies this`isLoading, this`settled, this`bodyReads, this`alerts, this`navigations
      ensures Valid() && !isLoading
      ensures Snapshot() == Settle(old(Snapshot()), settlement)
    {
      isLoading := false;
      settled := settled + 1;
      match settlement
      case Responded(ok) =>
        if ok {
          alerts := alerts + [SuccessAlert];
          navigations := navigations + [LoginScreen];
        } else {
          bodyReads := bodyReads + 1;
        }
      case FetchRejected(m) =>
        alerts := alerts + [Caught(m)];
      StepKeepsConsistent(old(Snapshot()), RequestSettled(settlement));
    }

    /** `handleRegister` resumed when a pending `response.text()` settles. */
    method ResumeAfterBodyRead(read: TextRead)
      requires Valid() && bodyReads > 0
      modifies this`isLoading, this`bodyReads, this`rejectedReads, this`alerts
      ensures Valid()
      ensures Snapshot() == ReadBody(old(Snapshot()), read)
    {
      bodyReads := bodyReads - 1;
      match read
      case Text(text) =>
        alerts := alerts + [Failed(text)];
      case TextRejected(m) =>
        isLoading := false;
        rejectedReads := rejectedReads + 1;
        alerts := alerts + [Caught(m)];
      StepKeepsConsistent(old(Snapshot()), BodyTextRead(read));
    }
  }
}
