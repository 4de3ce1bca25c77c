# Oxycord login, modelled in Dafny

Oxycord signs a user in to a Discord account and keeps the session token
for later launches. This project models the part of it that decides things:

- the start screen, chosen from the stored token;
- the "Login" button's click handler, which checks the email, then the
  password, and either flags the missing field or shows the
  "Logging in..." spinner and posts the login request;
- the reading of the login response, which tries the keys `captcha_key`,
  `token` and `errors` in that order;
- what the background task and its completion reaction then do: store and
  save the token and show "Loading...", rebuild the form with the typed
  values and the "Incorrect login info" dialog, exit with code 0 or 1, or
  panic;
- the captcha sub-flow. The embedded login page runs a script that patches
  `XMLHttpRequest.prototype.setRequestHeader` and reports every
  `Authorization` value that is non-empty and does not start with `Bearer`.
  `extract_token_from_discord` keeps the first reported value and closes
  the window at once.

Files:

- `wrappers.dfy`: module `Wrappers`, the `Option` datatype.
- `token_capture.dfy`: module `TokenCapture`. It holds the report condition
  of `src/extract_token.js` and the `HeaderHook` class for the patched
  setter. It also holds `ExtractToken`, which runs the embedded session over
  the page's header calls and stops at the first report.
- `login.dfy`: module `Login`. It has the pure decisions (`StartScreen`,
  `Validate`, `Flag`, `Classify`, `TaskResult`) and the `LoginWindow`
  class. The class's fields are the window's screen and the session data
  (`DATA.discord_token`). It also records the saves, the sent requests, the
  attempt in flight and the number of embedded windows opened.
- `scenarios.dfy`: module `Scenarios`, whole launches built from the class's
  methods, each proved from the method contracts.

The parsed HTTP response is an input datatype (`Response`): send failure,
body not JSON, JSON that is not an object, or an object whose values are
either strings or something else. The embedded page is an input too: the
finite sequence of `setRequestHeader` calls it makes before its window
closes. Whether `Data::save` succeeds is a boolean input. The background
task and its completion reaction run as a single call, `Complete`.

On the fatal paths the model follows the code exactly:

- An unknown object shape, a non-object body and a JSON error call
  `std::process::exit(1)` (`Terminated(1)`).
- A send failure and a non-string `token` panic (`Fatal`); a non-string
  token is not an exit with code 1.

## Model

| member | source | states |
|---|---|---|
| TokenCapture.Reports | src/extract_token.js:4 | the name is exactly "Authorization", the value is non-empty and has no "Bearer" prefix |
| TokenCapture.ReportsOnlyAuthorization | src/extract_token.js:4 | only a header named exactly "Authorization" is reported; the name is case-sensitive |
| TokenCapture.ReportsNeverEmptyOrBearer | src/extract_token.js:4 | an empty value, or one starting with "Bearer", is never reported |
| TokenCapture.ReportsEveryOtherAuthorization | src/extract_token.js:4 | every other non-empty Authorization value is reported |
| TokenCapture.HeaderHook.constructor | src/extract_token.js:1-3 | the freshly patched setter has reported and forwarded nothing |
| TokenCapture.HeaderHook.SetRequestHeader | src/extract_token.js:3-7 | the call is always forwarded with the same arguments; the value is reported unchanged exactly when the condition holds |
| TokenCapture.FirstReported | src/main.rs:275-293 | None exactly when no header call is reported; otherwise the value of a reported call that no earlier call precedes |
| TokenCapture.FirstReportedIgnoresLater | src/main.rs:283-287 | calls made after the first report do not change the captured token |
| TokenCapture.ExtractToken | src/main.rs:275-293 | the session yields FirstReported of the calls; with no report it sees every call, otherwise it stops right after the call whose value it yields |
| Login.StartScreen | src/main.rs:263-269 | a stored token gives Waiting("Loading..."); no token gives the form with two empty, unflagged entries |
| Login.Validate | src/main.rs:63-110 | the email is checked first, then the password; with both non-empty the request is exactly the typed email and password, undelete false and three nulls |
| Login.Flag | src/main.rs:67-78 | a missing email flags the email, sets its prompt to "Please insert email!" and unflags the password; a missing password flags the password, sets "Please insert password!" and unflags the email; texts are kept |
| Login.Classify | src/main.rs:115-151 | captcha_key beats token and errors, token beats errors; a token value is either the string or TokenNotString; other objects, non-objects and JSON errors, and send failures get their own outcomes |
| Login.TaskResult | src/main.rs:115-153 | success only from a string token or a captured token; "Incorrect login info" only from errors; exit 0 only from an abandoned captcha; exit 1 from unknown objects and bad bodies; panic from a non-string token and a send failure |
| Login.CapturedTokenActsAsTokenResponse | src/main.rs:117-141 | a captcha response whose session captures t ends exactly like a token response carrying t |
| Login.KeyPrecedence | src/main.rs:117-137 | with captcha_key present the result depends only on the capture; with token present and no captcha_key it is never the errors path |
| Login.LoginWindow.constructor | src/main.rs:263-269 | start-up keeps the loaded token and shows StartScreen of it; nothing sent, saved or in flight |
| Login.LoginWindow.Type | src/main.rs:63-64 | the texts read by the click handler are the ones typed; flags and placeholders stay |
| Login.LoginWindow.Dismiss | src/main.rs:175-176 | closing the dialog leaves the rebuilt form |
| Login.LoginWindow.Click | src/main.rs:62-110 | a rejected click changes only the entries, per Flag, and sends nothing; an accepted one shows "Logging in...", appends exactly Validate's request and keeps the typed pair for the reaction |
| Login.LoginWindow.Complete | src/main.rs:111-180 | one embedded window exactly when a captcha is required; on success the token is set, saved and "Loading..." shows (a failed save is fatal); on errors the form comes back with the typed values and "Incorrect login info"; on every other path the token and saves are unchanged |
| Scenarios.StartAndSubmit | src/main.rs:80-110 | from a launch without token, filling both fields and clicking sends exactly one request with those values |
| Scenarios.EmptyEmail | src/main.rs:67-72 | an empty email is flagged whatever the password and nothing is sent |
| Scenarios.EmailThenEmptyPassword | src/main.rs:67-78 | after an empty-email click, an empty password is flagged, the email error is cleared and its prompt stays |
| Scenarios.TokenResponse | src/main.rs:127-141 | a token response stores and saves the token and shows "Loading..." |
| Scenarios.ErrorsResponse | src/main.rs:132-133 | an errors response returns to the form with the typed values and the message, storing nothing |
| Scenarios.CaptchaCompleted | src/main.rs:117-126 | a captcha response opens exactly one window and a captured token takes the success path |
| Scenarios.CaptchaAbandoned | src/main.rs:119-125 | a captcha window closed without a report ends with exit code 0 and stores nothing |
| Scenarios.UnknownResponse | src/main.rs:134-137 | an object without the three known keys ends with exit code 1 and stores nothing |

## Left out

- Widgets: building the GTK widgets, layout, CSS, icons and the message dialog (src/main.rs:23-58, 168-176, 194-214, 243-261). Only the resulting screen is modelled. The built-in placeholders (the example address, and the password mask made of sixteen invisible characters) are represented as "no replaced prompt".
- Background runtime: the tokio worker thread and its keep-alive (src/main.rs:220-237), and `spawn_future` (src/async_abstractions.rs). These are cross-thread scheduling, so the task and its reaction run as one call, `Complete`.
- HTTP and JSON: sending the request and parsing the body (src/main.rs:101-115) are library calls. Their result is the `Response` input. The send `unwrap` panic is `SendError`, which leads to `Fatal`.
- Credential store: `Data::load` and `Data::save` (src/data.rs:22-55) are file I/O over bincode. A save is recorded in `saved`, and its failure is the `saveOk` input. A failed load (a panic at start-up) and the load/save round trip are not modelled.
- Diagnostics: the messages printed to stderr before `exit(1)` (src/main.rs:135, 144, 148) are not modelled; `Terminated(1)` carries no message.
- Global lock: the lazy_static mutex around the session data (src/main.rs:13-15) is the plain field `token`.
- Embedded browser: the webview itself (src/main.rs:277-291) is replaced by the sequence of header calls. The model assumes no second report reaches the invoke handler after `webview.exit()` has been called.
- Non-string arguments: header names and values are strings. JavaScript's loose `==` with a non-string name, and `startsWith` on a non-string value, are not modelled.
- build.rs: it runs external build tools.
