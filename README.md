# dcr: route dispatch and the health flag

dcr is a small diagnostic HTTP server. Its testable core has two parts. The
first is the route table it builds at startup under the base path `/dcr`:
`/dcr/health`, `/dcr/logger`, `/dcr/version`, `/debug`, `/dcr`, and a default
service for every other path. The second is the process-wide health flag that
`GET /dcr/health` reads and `PUT`/`POST /dcr/health` toggle. This project
models both in Dafny and proves what the server promises about them.

- `http.dfy`, module `Http`: methods, requests, responses, status codes.
- `routing.dfy`, module `Routing`: the route table as data.
  - Resources are tried in registration order, then guarded routes inside a
    resource, both first-match.
  - The default service answers when no resource matches.
  - `Dispatch(path, method)` gives the `Outcome`.
  - `Reference` is an independent statement of the rules, bucket by bucket.
    `DispatchMatchesReference` proves the table implements it for every base path.
- `handlers.dfy`, module `Handlers`: each handler's reply as a total function.
  The version, logger, 404, health and toggle replies do not depend on the
  request, and the version reply does not depend on the request body handed to
  it as text. The pages of the main and debug handlers do depend on the request;
  they are not represented (see "## Left out").
  `ReadToggleMessage` reads the toggle's message back, so that "the message
  names the stored value" becomes a round trip.
- `health.dfy`, module `Health`: class `HealthFlag` with a `healthy` field.
  - `Query` only reads it.
  - `Toggle` loads it, negates it and stores the result, like the source.
  - Lemmas cover the parity of repeated toggles.
- `service.dfy`, module `Service`: class `Server` ties the parts together.
  - It holds the flag.
  - `Handle` dispatches one request. It is proved against `Step` (the flag
    afterwards) and `Respond` (the reply). Its second argument is the result of
    the framework's text extraction of the request body, which the version
    handler's `String` argument receives; when extraction fails, the framework
    answers and the handler does not run.
  - `Run` folds `Step` over a sequence of requests. Lemmas about it prove the
    even/odd behaviour of the health query after any request history.
  - `ProbeSession` is a client that replays a probe's query/toggle/query/... session.

Behaviour of the code worth knowing when reading the model:

- The logger replies `"input written to log"` and never reads the request body.
- The version handler replies `"0.1"`. Its second argument `dcr_stamp` is filled by the framework from the request body as text, not from the `DCR_STAMP` setting, and the handler ignores it.
- `DCR_STAMP` and `DCR_LOGGER` are read at startup and only logged. `DCR_HEALTH` must be set at startup, but its value is never used: the flag always starts healthy, and the startup log reports the flag, not the setting.
- The toggle is a separate load and store, not an atomic flip.

## Model

| member | source | states |
|---|---|---|
| Routing.Dispatch | src/main.rs:56-85 | Dispatch with the code's base path "/dcr" equals the reference rules for every path and method. |
| Routing.Table | src/main.rs:60-73 | The registered resources in registration order. `DispatchMatchesReference` proves that first-match lookup in it gives the reference rules. |
| Routing.HealthPath | src/main.rs:51 | The health path is the base path followed by "/health". `PathsDistinctIff` proves the five paths are distinct unless the base is "/debug", where the base path coincides with the debug path. |
| Routing.LoggerPath | src/main.rs:53 | The logger path is the base path followed by "/logger". `PathsDistinctIff` covers it. |
| Routing.VersionPath | src/main.rs:52 | The version path is the base path followed by "/version". `PathsDistinctIff` covers it. |
| Routing.DispatchMatchesReference | src/main.rs:56-85 | For every base path, path, and method, first-match lookup in the registered table and then the default service gives exactly the reference outcome. Path is checked before method. |
| Routing.FindResourceFirstMatch | src/main.rs:60-73 | Resource lookup returns a resource with the request path that has no earlier resource with that path. It returns nothing exactly when no resource has the path. |
| Routing.SelectRouteFirstMatch | src/main.rs:61-64 | Route selection in a resource returns the target of the first route whose guard admits the method. It returns nothing exactly when no guard admits it. |
| Routing.BucketSelect | src/main.rs:61-84 | Each bucket's method rules: GET queries health and PUT/POST toggle it. PUT/POST reach the logger. Only GET reaches version. In the default service GET gives 404 and all other methods give 405. |
| Routing.PathsDistinctIff | src/main.rs:51-53 | The five resource paths built from a base path are pairwise distinct exactly when the base path is not "/debug". |
| Routing.RegisteredPathsDistinct | src/main.rs:39-53 | With base path "/dcr" the five concrete paths are pairwise distinct. The built paths are "/dcr/health", "/dcr/logger" and "/dcr/version". |
| Routing.HealthPathDispatch | src/main.rs:61-64 | On "/dcr/health", GET goes to the query and PUT or POST to the toggle. Other methods find no route on the resource. |
| Routing.LoggerPathDispatch | src/main.rs:67-69 | On "/dcr/logger", exactly PUT and POST go to the logger. Other methods find no route on the resource. |
| Routing.VersionPathDispatch | src/main.rs:71 | On "/dcr/version", exactly GET goes to version. Other methods find no route on the resource. |
| Routing.AnyMethodPathDispatch | src/main.rs:72-73 | Every method on "/debug" goes to debug, and every method on "/dcr" goes to main. |
| Routing.DefaultService | src/main.rs:75-84 | On any unregistered path, GET gives the 404 page and every other method gives 405, whatever the path. |
| Routing.DefaultOutcomesIff | src/main.rs:56-85 | 404 happens exactly for GET on an unregistered path, and 405 exactly for non-GET on an unregistered path. A registered path never yields either. |
| Routing.ToggleOutcomeIff | src/main.rs:61-64 | The toggle is reached exactly by PUT or POST on "/dcr/health". |
| Handlers.VersionResponse | src/main.rs:166-176 | Always 200, HTML, body "0.1", whatever the request and whatever text the body extraction passed as the second argument. |
| Handlers.LoggerResponse | src/main.rs:179-184 | Always 200, HTML, body "input written to log", whatever the request. |
| Handlers.NotFoundResponse | src/main.rs:187-197 | Always 404, HTML, body "NOT FOUND", whatever the request. |
| Handlers.MethodNotAllowedResponse | src/main.rs:80-84 | The default service's non-GET reply is a bare 405 with no content type and no body. |
| Handlers.DiagnosticResponse | src/main.rs:130-132 | The main handler (and likewise the debug handler, lines 25-27) answers 200 with an HTML page. The page's content is not modelled. |
| Handlers.HealthResponse | src/main.rs:137-145 | The status is 200 iff the flag is true and 503 iff it is false. The body is "OK" or "KO" to match. |
| Handlers.ToggleResponse | src/main.rs:160-162 | Status 200, HTML. The body is a toggle message that reads back as exactly the stored value. |
| Handlers.ToggleMessageRoundTrip | src/main.rs:162 | Reading "healthcheck toggled to <b> state" back gives `b`. |
| Handlers.ReadBackFixesBody | src/main.rs:162 | Any text that reads back as `b` is exactly "healthcheck toggled to <b> state", so the toggle reply's body is that message. |
| Handlers.ToggleResponseInjective | src/main.rs:160-162 | Two toggle replies are equal iff they report the same state. |
| Health.HealthFlag.constructor | src/main.rs:19 | The flag starts healthy. |
| Health.HealthFlag.Load | src/main.rs:137 | Returns the current flag. |
| Health.HealthFlag.Store | src/main.rs:49 | Sets the flag to the given value. |
| Health.HealthFlag.Query | src/main.rs:135-147 | Replies with the health reply for the current flag and leaves the flag unchanged. |
| Health.HealthFlag.Toggle | src/main.rs:149-163 | The new flag is the negation of the old one. The reply reports the new value. |
| Health.ToggleParity | src/main.rs:151-152 | After n toggles the flag is the original value if n is even and its negation if n is odd. |
| Health.ToggleTwice | src/main.rs:151-152 | Two more toggles restore the flag. |
| Health.QueryAfterToggles | src/main.rs:137-145 | From the initial true, after n toggles the query gives 200 "OK" iff n is even and 503 "KO" iff n is odd. |
| Service.Step | src/main.rs:135-163 | The flag after one request. `OnlyToggleWrites` proves it changes exactly when the request is dispatched to the toggle. |
| Service.Respond | src/main.rs:60-84 | The reply of the handler each outcome is wired to (line 71 for version, with the body text argument). `QueryAfterRun`, `DefaultReplies` and `VersionReply` state its replies. |
| Service.DefaultReplies | src/main.rs:75-84 | On any unregistered path, GET gets 404 with body "NOT FOUND" and every other method gets a bare 405, whatever the flag. |
| Service.VersionReply | src/main.rs:71 | A GET on "/dcr/version" gets 200 "0.1" whatever the body text, and no handler reply when body extraction fails. |
| Service.RunIsAfterToggles | src/main.rs:151-152 | Handling a sequence of requests has the effect of as many toggles as it holds toggle requests. |
| Service.IsToggleIffDispatched | src/main.rs:61-64 | A request is a toggle (PUT or POST on the health path) iff the route table sends it to the toggle handler. |
| Service.OnlyToggleWrites | src/main.rs:135-197 | A request changes the flag iff it is dispatched to the toggle. Every other outcome leaves the flag as it was. |
| Service.RunParity | src/main.rs:151-152 | After any sequence of requests, the flag is the initial value flipped once for each toggle request in it. |
| Service.ReadOnlyRun | src/main.rs:135-147 | A sequence with no toggle requests, such as repeated health queries, leaves the flag unchanged. |
| Service.QueryAfterRun | src/main.rs:137-152 | Starting healthy, a GET on "/dcr/health" after any request history gives 200 "OK" iff the history held an even number of toggles, and 503 "KO" iff odd. |
| Service.Server.constructor | src/main.rs:49 | Startup stores true in a fresh flag. |
| Service.Server.Handle | src/main.rs:56-85 | The new flag is `Step` of the old flag. The reply is `Respond`'s reply for the dispatched outcome, or none where the framework answers by itself. |

## Left out

- Server bootstrap is not modelled: HTTP server, runtime, socket binding, and reading `DCR_PORT`, `DCR_STAMP`, `DCR_HEALTH` and `DCR_LOGGER` from the environment. Apart from the port, `DCR_STAMP` and `DCR_LOGGER` are only logged, and the value of `DCR_HEALTH` is never used. Startup failure on a missing variable is I/O.
- Logging is not modelled. Every `info!`/`debug!` call is a side effect with no contract.
- Concurrency is not modelled. The flag is modelled sequentially. The source's toggle is a relaxed load followed by a separate store, so concurrent toggles can be lost. No "no toggle is lost" property is claimed.
- The main handler's HTML page is not modelled: request line, headers and process environment, rendered with the library's formatting. Neither is the debug handler's streamed body. Both appear as a 200 HTML reply with a `Diagnostic` body.
- A wrong method on a registered resource (such as GET on "/dcr/logger") does not match any route in that resource. The framework then answers by itself. The model gives it the distinct outcome `UnmatchedMethod`, and `Handle` returns no response for it.
- Matching is exact string equality on the path. The framework's handling of trailing slashes, percent-encoding and query strings is not modelled.
- The request body on the logger endpoint is not modelled, because the code never reads it.
- The framework's text extraction of the body for the version handler is not modelled: its decoding and its size limit. Its result is an input to `Handle` and `Respond`. When it fails, the framework sends an error reply whose status is not asserted, and the model gives no response.
