/**
 * Whole launches of the login window, from start-up to the end of one
 * login attempt, proved from the contracts of `Login.LoginWindow` alone.
 * Each starts without a stored token (`Data::load` found no file).
 */
module Scenarios {
  import opened Wrappers
  import opened TokenCapture
  import opened Login

  /** Start-up, then the user fills both fields and presses "Login". */
  method StartAndSubmit(email: string, password: string) returns (w: LoginWindow)
    requires email != "" && password != ""
    ensures fresh(w) && w.Valid()
    ensures w.token == None && w.saved == [] && w.captchaWindows == 0
    ensures w.ui == Waiting(LoggingIn) && w.inFlight == Some(Attempt(email, password))
    ensures w.submitted == [LoginRequest(email, password, false, None, None, None)]
  {
    w := new LoginWindow(None);
    w.Type(email, password);
    w.Click();
  }

  /** Pressing "Login" with an empty email flags it and sends nothing, whatever the password. */
  method EmptyEmail(password: string) returns (ui: Ui, sent: seq<LoginRequest>)
    ensures sent == []
    ensures ui == Form(Entry("", true, Some("Please insert email!")), Entry(password, false, None), None)
  {
    var w := new LoginWindow(None);
    w.Type("", password);
    w.Click();
    ui, sent := w.ui, w.submitted;
  }

  /** The email alone is filled: the password is flagged, the email error cleared. */
  method EmailThenEmptyPassword(email: string) returns (ui: Ui, sent: seq<LoginRequest>)
    requires email != ""
    ensures sent == []
    ensures ui == Form(Entry(email, false, Some("Please insert email!")), Entry("", true, Some("Please insert password!")), None)
  {
    var w := new LoginWindow(None);
    w.Click();
    w.Type(email, "");
    w.Click();
    ui, sent := w.ui, w.submitted;
  }

  /** The server answers with a token: it is stored, saved, and "Loading..." shows. */
  method TokenResponse(email: string, password: string, t: string) returns (ui: Ui, token: Option<string>, saved: seq<Option<string>>)
    requires email != "" && password != ""
    ensures token == Some(t) && saved == [Some(t)] && ui == Waiting("Loading...")
  {
    var w := StartAndSubmit(email, password);
    w.Complete(Object(map["token" := JString(t)]), [], true);
    ui, token, saved := w.ui, w.token, w.saved;
  }

  /** The server reports errors: the form returns with the typed values and the message; nothing is saved. */
  method ErrorsResponse(email: string, password: string, errors: Json) returns (ui: Ui, token: Option<string>, saved: seq<Option<string>>)
    requires email != "" && password != ""
    ensures token == None && saved == []
    ensures ui == Form(Entry(email, false, None), Entry(password, false, None), Some("Incorrect login info"))
  {
    var w := StartAndSubmit(email, password);
    w.Complete(Object(map["errors" := errors]), [], true);
    ui, token, saved := w.ui, w.token, w.saved;
  }

  /** A captcha is required and the embedded page reports `t`: exactly one window, then the success path. */
  method CaptchaCompleted(email: string, password: string, calls: seq<Header>, t: string)
    returns (ui: Ui, token: Option<string>, saved: seq<Option<string>>, windows: nat)
    requires email != "" && password != ""
    requires FirstReported(calls) == Some(t)
    ensures windows == 1 && token == Some(t) && saved == [Some(t)] && ui == Waiting("Loading...")
  {
    var w := StartAndSubmit(email, password);
    w.Complete(Object(map["captcha_key" := JNonString]), calls, true);
    ui, token, saved, windows := w.ui, w.token, w.saved, w.captchaWindows;
  }

  /** A captcha is required and the user closes the window before any report: exit code 0, nothing stored. */
  method CaptchaAbandoned(email: string, password: string, calls: seq<Header>)
    returns (ui: Ui, token: Option<string>, saved: seq<Option<string>>, windows: nat)
    requires email != "" && password != ""
    requires forall k :: 0 <= k < |calls| ==> !Reports(calls[k])
    ensures windows == 1 && token == None && saved == [] && ui == Terminated(0)
  {
    var w := StartAndSubmit(email, password);
    w.Complete(Object(map["captcha_key" := JNonString]), calls, true);
    ui, token, saved, windows := w.ui, w.token, w.saved, w.captchaWindows;
  }

  /** A response object none of whose keys is known ends the process with code 1. */
  method UnknownResponse(email: string, password: string, fields: map<string, Json>)
    returns (ui: Ui, token: Option<string>, saved: seq<Option<string>>)
    requires email != "" && password != ""
    requires "captcha_key" !in fields && "token" !in fields && "errors" !in fields
    ensures token == None && saved == [] && ui == Terminated(1)
  {
    var w := StartAndSubmit(email, password);
    w.Complete(Object(fields), [], true);
    ui, token, saved := w.ui, w.token, w.saved;
  }
}
