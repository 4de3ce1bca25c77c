/**
 * The login decisions of src/main.rs, taken out of the GTK closures.
 *
 * Pure parts: the start screen chosen from the stored token, the field
 * validation of the click handler, the classification of the login
 * response and what the background task ends with. Imperative part: the
 * `LoginWindow` class, whose fields are the window's current screen and
 * the process-wide session data, and whose methods are the user's actions
 * and the completion of the background login task.
 */
module Login {
  import opened Wrappers
  import opened TokenCapture

  const LoggingIn: string := "Logging in..."
  const Loading: string := "Loading..."
  const IncorrectLoginInfo: string := "Incorrect login info"
  const EmailPrompt: string := "Please insert email!"
  const PasswordPrompt: string := "Please insert password!"

  // ---------------------------------------------------------------- screens

  /**
   * A text entry of the login form: its text, whether it carries the
   * `login_error` style class, and its placeholder (None while it still
   * shows the placeholder it was built with).
   */
  datatype Entry = Entry(text: string, flagged: bool, prompt: Option<string>)

  /** An entry as `build_login_ui` creates it. */
  function NewEntry(text: string): Entry
  {
    Entry(text, false, None)
  }

  /**
   * What the window shows: the login form (with the message of a modal
   * error dialog over it, if one is open), the spinner page with its label,
   * or the process is gone: `Terminated` by `std::process::exit`, `Fatal`
   * by a panic.
   */
  datatype Ui =
    | Form(email: Entry, password: Entry, alert: Option<string>)
    | Waiting(message: string)
    | Terminated(code: int)
    | Fatal

  /** The activate closure of `main`: a stored token skips the login form. */
  function StartScreen(stored: Option<string>): (u: Ui)
    ensures stored.Some? <==> u == Waiting("Loading...")
    ensures stored.None? <==> u == Form(NewEntry(""), NewEntry(""), None)
  {
    match stored
    case Some(_) => Waiting(Loading)
    case None => Form(NewEntry(""), NewEntry(""), None)
  }

  // ------------------------------------------------------------- validation

  /** The JSON body posted to the login endpoint; `None` is serialised as null. */
  datatype LoginRequest = LoginRequest(
    email: string, password: string, undelete: bool,
    captchaKey: Option<()>, loginSource: Option<()>, giftCodeSkuId: Option<()>)

  datatype Validation = MissingEmail | MissingPassword | Submit(request: LoginRequest)

  /** The click handler's checks: the email first, then the password. */
  function Validate(email: string, password: string): (v: Validation)
    ensures v == MissingEmail <==> email == ""
    ensures v == MissingPassword <==> email != "" && password == ""
    ensures v.Submit? <==> email != "" && password != ""
    ensures v.Submit? ==> v.request == LoginRequest(email, password, false, None, None, None)
  {
    if |email| == 0 then MissingEmail
    else if |password| == 0 then MissingPassword
    else Submit(LoginRequest(email, password, false, None, None, None))
  }

  /** What a rejected click does to the form's two entries. */
  function Flag(email: Entry, password: Entry, v: Validation): (r: (Entry, Entry))
    requires !v.Submit?
    ensures r.0.text == email.text && r.1.text == password.text
    ensures v == MissingEmail ==> r.0.flagged && r.0.prompt == Some(EmailPrompt) && !r.1.flagged && r.1.prompt == password.prompt
    ensures v == MissingPassword ==> !r.0.flagged && r.0.prompt == email.prompt && r.1.flagged && r.1.prompt == Some(PasswordPrompt)
  {
    if v == MissingEmail then (email.(flagged := true, prompt := Some(EmailPrompt)), password.(flagged := false))
    else (email.(flagged := false), password.(flagged := true, prompt := Some(PasswordPrompt)))
  }

  // --------------------------------------------------------- classification

  /** A JSON value, as far as the task looks at it: a string or something else. */
  datatype Json = JString(s: string) | JNonString

  /**
   * The HTTP exchange as the task sees it: sending failed, the body is not
   * JSON, it is JSON but not an object, or it is an object.
   */
  datatype Response = SendError | ParseError | NonObject | Object(fields: map<string, Json>)

  datatype Outcome =
    | CaptchaRequired
    | GotToken(token: string)
    | TokenNotString
    | Rejected
    | UnknownShape
    | BadBody
    | NoResponse

  /**
   * The task's reading of a response. For an object the keys are tried in a
   * fixed order: "captcha_key", then "token", then "errors".
   */
  function Classify(r: Response): (o: Outcome)
    ensures r.Object? && "captcha_key" in r.fields ==> o == CaptchaRequired
    ensures o == CaptchaRequired ==> r.Object? && "captcha_key" in r.fields
    ensures r.Object? && "captcha_key" !in r.fields && "token" in r.fields ==>
              o == match r.fields["token"] { case JString(t) => GotToken(t) case JNonString => TokenNotString }
    ensures (o.GotToken? || o == TokenNotString) ==> r.Object? && "token" in r.fields
    ensures o == Rejected <==> r.Object? && "captcha_key" !in r.fields && "token" !in r.fields && "errors" in r.fields
    ensures o == UnknownShape <==> r.Object? && "captcha_key" !in r.fields && "token" !in r.fields && "errors" !in r.fields
    ensures o == BadBody <==> r == ParseError || r == NonObject
    ensures o == NoResponse <==> r == SendError
  {
    match r
    case SendError => NoResponse
    case ParseError => BadBody
    case NonObject => BadBody
    case Object(fields) =>
      if "captcha_key" in fields then CaptchaRequired
      else if "token" in fields then
        (match fields["token"] case JString(t) => GotToken(t) case JNonString => TokenNotString)
      else if "errors" in fields then Rejected
      else UnknownShape
  }

  // ------------------------------------------------------------ task result

  /**
   * How the background task ends: with a token to store, with the error
   * message handed to the completion reaction, by `std::process::exit`, or
   * by a panic.
   */
  datatype TaskEnd = Authenticated(token: string) | Retry(message: string) | Exit(code: int) | Panicked

  /**
   * The task for one response; `calls` are the header calls of the embedded
   * page, consulted only when a captcha is required.
   */
  function TaskResult(r: Response, calls: seq<Header>): (e: TaskEnd)
    ensures e.Authenticated? <==>
              Classify(r).GotToken? || (Classify(r) == CaptchaRequired && FirstReported(calls).Some?)
    ensures e.Authenticated? && Classify(r) == CaptchaRequired ==> FirstReported(calls) == Some(e.token)
    ensures e.Authenticated? && Classify(r) != CaptchaRequired ==> Classify(r) == GotToken(e.token)
    ensures e.Retry? <==> Classify(r) == Rejected
    ensures e.Retry? ==> e.message == "Incorrect login info"
    ensures e == Exit(0) <==> Classify(r) == CaptchaRequired && FirstReported(calls).None?
    ensures e == Exit(1) <==> Classify(r) in {UnknownShape, BadBody}
    ensures e.Exit? ==> e.code in {0, 1}
    ensures e == Panicked <==> Classify(r) in {TokenNotString, NoResponse}
  {
    match Classify(r)
    case CaptchaRequired =>
      (match FirstReported(calls) case Some(t) => Authenticated(t) case None => Exit(0))
    case GotToken(t) => Authenticated(t)
    case TokenNotString => Panicked
    case Rejected => Retry(IncorrectLoginInfo)
    case UnknownShape => Exit(1)
    case BadBody => Exit(1)
    case NoResponse => Panicked
  }

  /** A captcha response whose embedded session captures `t` ends like a `token` response carrying `t`. */
  lemma CapturedTokenActsAsTokenResponse(fields: map<string, Json>, calls: seq<Header>, t: string, noCalls: seq<Header>)
    requires "captcha_key" in fields && FirstReported(calls) == Some(t)
    ensures TaskResult(Object(fields), calls) == TaskResult(Object(map["token" := JString(t)]), noCalls)
    ensures TaskResult(Object(fields), calls) == Authenticated(t)
  {
  }

  /** "captcha_key" wins over "token" and "errors"; "token" wins over "errors". */
  lemma KeyPrecedence(fields: map<string, Json>, calls: seq<Header>)
    ensures "captcha_key" in fields ==>
              TaskResult(Object(fields), calls) == if FirstReported(calls).Some? then Authenticated(FirstReported(calls).value) else Exit(0)
    ensures "captcha_key" !in fields && "token" in fields ==> !TaskResult(Object(fields), calls).Retry?
  {
  }

  // ---------------------------------------------------------------- window

  /** The email and password the completion closure holds on to. */
  datatype Attempt = Attempt(email: string, password: string)

  /**
   * The login window together with the process-wide session data
   * (`DATA.discord_token`, src/data.rs:9-11). `saved` lists the token of
   * every successful `Data::save`, `submitted` every request sent,
   * `inFlight` the attempt whose background task has not completed yet and
   * `captchaWindows` how many embedded login windows were opened.
   */
  class LoginWindow {
    var ui: Ui
    var token: Option<string>
    var saved: seq<Option<string>>
    var submitted: seq<LoginRequest>
    var inFlight: Option<Attempt>
    var captchaWindows: nat

    /**
     * A task is in flight exactly while the "Logging in..." spinner shows;
     * only tokens are saved; while the process lives the stored token
     * equals the last one saved.
     */
    ghost predicate Valid()
      reads this
    {
      && (inFlight.Some? <==> ui == Waiting(LoggingIn))
      && (forall k :: 0 <= k < |saved| ==> saved[k].Some?)
      && (saved != [] && ui != Fatal ==> token == saved[|saved| - 1])
    }

    /** Start-up with the token loaded by `Data::load`. */
    constructor (stored: Option<string>)
      ensures Valid()
      ensures ui == StartScreen(stored) && token == stored
      ensures saved == [] && submitted == [] && inFlight == None && captchaWindows == 0
    {
      ui := StartScreen(stored);
      token := stored;
      saved := [];
      submitted := [];
      inFlight := None;
      captchaWindows := 0;
    }

    /** The user edits the two entries of the form. */
    method Type(email: string, password: string)
      requires Valid() && ui.Form? && ui.alert.None?
      modifies this`ui
      ensures Valid()
      ensures ui == old(ui).(email := old(ui).email.(text := email), password := old(ui).password.(text := password))
    {
      ui := ui.(email := ui.email.(text := email), password := ui.password.(text := password));
    }

    /** The user closes the modal error dialog. */
    method Dismiss()
      requires Valid() && ui.Form? && ui.alert.Some?
      modifies this`ui
      ensures Valid()
      ensures ui == old(ui).(alert := None)
    {
      ui := ui.(alert := None);
    }

    /**
     * The "Login" button's click handler: a missing field is flagged and
     * nothing is sent; otherwise the spinner replaces the form and the
     * request is sent with exactly the typed email and password.
     */
    method Click()
      requires Valid() && ui.Form? && ui.alert.None?
      modifies this`ui, this`submitted, this`inFlight
      ensures Valid()
      ensures var v := Validate(old(ui).email.text, old(ui).password.text);
              if v.Submit? then
                ui == Waiting(LoggingIn) && submitted == old(submitted) + [v.request]
                && inFlight == Some(Attempt(old(ui).email.text, old(ui).password.text))
              else
                var flagged := Flag(old(ui).email, old(ui).password, v);
                ui == Form(flagged.0, flagged.1, None) && submitted == old(submitted) && inFlight == None
    {
      var email, password := ui.email, ui.password;
      var v := Validate(email.text, password.text);
      match v
      case MissingEmail =>
        email := email.(prompt := Some(EmailPrompt));
        password := password.(flagged := false);
        email := email.(flagged := true);
        ui := Form(email, password, None);
      case MissingPassword =>
        password := password.(prompt := Some(PasswordPrompt));
        email := email.(flagged := false);
        password := password.(flagged := true);
        ui := Form(email, password, None);
      case Submit(request) =>
        ui := Waiting(LoggingIn);
        submitted := submitted + [request];
        inFlight := Some(Attempt(email.text, password.text));
    }

    /**
     * The background task runs to its end on `response` (opening the
     * embedded login window over `calls` if a captcha is required), then the
     * completion reaction runs. `saveOk` is whether `Data::save` succeeds.
     */
    method Complete(response: Response, calls: seq<Header>, saveOk: bool)
      requires Valid() && inFlight.Some?
      modifies this`ui, this`token, this`saved, this`inFlight, this`captchaWindows
      ensures Valid()
      ensures inFlight == None
      ensures captchaWindows == old(captchaWindows) + if Classify(response) == CaptchaRequired then 1 else 0
      ensures match TaskResult(response, calls)
              case Authenticated(t) =>
                token == Some(t)
                && (if saveOk then saved == old(saved) + [Some(t)] && ui == Waiting(Loading)
                    else saved == old(saved) && ui == Fatal)
              case Retry(m) =>
                token == old(token) && saved == old(saved)
                && ui == Form(NewEntry(old(inFlight).value.email), NewEntry(old(inFlight).value.password), Some(m))
              case Exit(c) => token == old(token) && saved == old(saved) && ui == Terminated(c)
              case Panicked => token == old(token) && saved == old(saved) && ui == Fatal
    {
      var attempt := inFlight.value;
      var end: TaskEnd;
      match Classify(response) {
        case CaptchaRequired =>
          captchaWindows := captchaWindows + 1;
          var captured, _ := ExtractToken(calls);
          end := if captured.Some? then Authenticated(captured.value) else Exit(0);
        case GotToken(t) => end := Authenticated(t);
        case TokenNotString => end := Panicked;
        case Rejected => end := Retry(IncorrectLoginInfo);
        case UnknownShape => end := Exit(1);
        case BadBody => end := Exit(1);
        case NoResponse => end := Panicked;
      }

      inFlight := None;
      match end
      case Authenticated(t) =>
        token := Some(t);
        if saveOk {
          saved := saved + [token];
          ui := Waiting(Loading);
        } else {
          ui := Fatal;
        }
      case Retry(m) => ui := Form(NewEntry(attempt.email), NewEntry(attempt.password), Some(m));
      case Exit(c) => ui := Terminated(c);
      case Panicked => ui := Fatal;
    }
  }
}
