/**
 * The running service: the route table, the handlers and the health flag put
 * together. One request is dispatched and answered at a time.
 */
module Service {
  import opened Http
  import opened Routing
  import opened Handlers
  import opened Health

  /** Whether a request is one the health toggle answers: PUT or POST on the health path. */
  predicate IsToggle(req: Request)
  {
    req.path == HealthPath(BasePath) && (req.verb == Put || req.verb == Post)
  }

  /** The toggle requests are exactly those the route table sends to the toggle handler. */
  lemma IsToggleIffDispatched(req: Request)
    ensures IsToggle(req) <==> Dispatch(req.path, req.verb) == HealthToggle
  {
    ToggleOutcomeIff(req.path, req.verb);
  }

  /** The flag after one request has been handled. */
  function Step(healthy: bool, req: Request): bool
  {
    if IsToggle(req) then !healthy else healthy
  }

  /**
   * The reply to one request, given the flag before it. `bodyText` is what the framework's
   * text extraction of the request body yields for the version handler's second argument:
   * None when it fails (a body that is not valid text, or one over the size limit), in which
   * case the framework answers and the handler never runs. None is also the reply where the
   * framework answers a method that no route of a registered resource admits.
   */
  function Respond(healthy: bool, req: Request, bodyText: Option<string>): Option<Response>
  {
    match Dispatch(req.path, req.verb)
    case HealthQuery => Some(HealthResponse(healthy))
    case HealthToggle => Some(ToggleResponse(!healthy))
    case Logger => Some(LoggerResponse(req))
    case Version => (match bodyText
                     case Some(text) => Some(VersionResponse(req, text))
                     case None => None)
    case Debug => Some(DiagnosticResponse(req))
    case Main => Some(DiagnosticResponse(req))
    case NotFound404 => Some(NotFoundResponse(req))
    case MethodNotAllowed405 => Some(MethodNotAllowedResponse())
    case UnmatchedMethod => None
  }

  /** Off the registered paths a GET gets the 404 page and every other method the bare 405, whatever the flag. */
  lemma DefaultReplies(healthy: bool, req: Request, bodyText: Option<string>)
    requires req.path !in RegisteredPaths(BasePath)
    ensures req.verb == Get ==> Respond(healthy, req, bodyText) == Some(Html(NOT_FOUND, "NOT FOUND"))
    ensures req.verb != Get ==> Respond(healthy, req, bodyText) == Some(Response(METHOD_NOT_ALLOWED, None, Empty))
  {
    DefaultService(req.path, req.verb);
  }

  /** Whatever the body text, the version path answers a GET with 200 "0.1" once extraction succeeds. */
  lemma VersionReply(healthy: bool, req: Request, text: string)
    requires req.path == "/dcr/version" && req.verb == Get
    ensures Respond(healthy, req, Some(text)) == Some(Html(OK, "0.1"))
    ensures Respond(healthy, req, None) == None
  {
    VersionPathDispatch(req.path, req.verb);
  }

  /** The flag after a sequence of requests, handled in order. */
  function Run(healthy: bool, reqs: seq<Request>): bool
    decreases |reqs|
  {
    if reqs == [] then healthy else Run(Step(healthy, reqs[0]), reqs[1..])
  }

  /** How many of the requests reach the toggle. */
  function Toggles(reqs: seq<Request>): (n: nat)
    ensures n <= |reqs|
  {
    if reqs == [] then 0 else (if IsToggle(reqs[0]) then 1 else 0) + Toggles(reqs[1..])
  }

  /** Only the toggle writes the flag: one request changes it exactly when the route table sends it to the toggle. */
  lemma OnlyToggleWrites(healthy: bool, req: Request)
    ensures Step(healthy, req) != healthy <==> Dispatch(req.path, req.verb) == HealthToggle
  {
    IsToggleIffDispatched(req);
  }

  /** Handling a sequence of requests toggles the flag once per toggle request in it. */
  lemma RunIsAfterToggles(healthy: bool, reqs: seq<Request>)
    ensures Run(healthy, reqs) == AfterToggles(healthy, Toggles(reqs))
  {
    RunParity(healthy, reqs);
    ToggleParity(healthy, Toggles(reqs));
  }

  /** After any sequence of requests the flag is the initial one flipped once per toggle among them. */
  lemma {:induction false} RunParity(healthy: bool, reqs: seq<Request>)
    ensures Run(healthy, reqs) == if Toggles(reqs) % 2 == 0 then healthy else !healthy
    decreases |reqs|
  {
    if reqs != [] {
      RunParity(Step(healthy, reqs[0]), reqs[1..]);
    }
  }

  /** Requests that are not toggles, health queries among them, leave the flag as it was. */
  lemma {:induction false} ReadOnlyRun(healthy: bool, reqs: seq<Request>)
    requires forall i :: 0 <= i < |reqs| ==> !IsToggle(reqs[i])
    ensures Run(healthy, reqs) == healthy
    decreases |reqs|
  {
    if reqs != [] {
      assert forall i :: 0 <= i < |reqs| - 1 ==> reqs[1..][i] == reqs[i + 1];
      ReadOnlyRun(healthy, reqs[1..]);
    }
  }

  /**
   * Starting healthy, a health query after any sequence of requests answers 200 "OK"
   * iff an even number of them were toggles, and 503 "KO" iff an odd number.
   */
  lemma QueryAfterRun(reqs: seq<Request>, query: Request, bodyText: Option<string>)
    requires query.path == "/dcr/health" && query.verb == Get
    ensures Respond(Run(true, reqs), query, bodyText) == Some(Html(OK, "OK")) <==> Toggles(reqs) % 2 == 0
    ensures Respond(Run(true, reqs), query, bodyText) == Some(Html(SERVICE_UNAVAILABLE, "KO")) <==> Toggles(reqs) % 2 == 1
  {
    RunParity(true, reqs);
    HealthPathDispatch(query.path, Get);
  }

  class Server {
    /** The process-wide health flag. */
    const health: HealthFlag

    /** Startup: the flag exists healthy and is stored healthy once more before serving. */
    constructor ()
      ensures fresh(health) && health.healthy
    {
      health := new HealthFlag();
      new;
      health.Store(true);
    }

    /**
     * Dispatches one request to its handler; only the toggle writes the flag.
     * `bodyText` is the framework's text extraction of the request body, as for `Respond`.
     */
    method Handle(req: Request, bodyText: Option<string>) returns (resp: Option<Response>)
      modifies health
      ensures health.healthy == Step(old(health.healthy), req)
      ensures resp == Respond(old(health.healthy), req, bodyText)
    {
      IsToggleIffDispatched(req);
      match Dispatch(req.path, req.verb)
      case HealthQuery =>
        var r := health.Query();
        resp := Some(r);
      case HealthToggle =>
        var r := health.Toggle();
        resp := Some(r);
      case _ =>
        resp := Respond(health.healthy, req, bodyText);
    }
  }

  /**
   * A probe's session on a freshly started server, the headers and payloads of its
   * requests being whatever they are: query, toggle, query, toggle, query.
   */
  method ProbeSession(query: Request, toggle: Request)
    requires query.path == "/dcr/health" && query.verb == Get
    requires toggle.path == "/dcr/health" && toggle.verb == Put
  {
    var server := new Server();
    HealthPathDispatch(query.path, Get);
    HealthPathDispatch(toggle.path, Put);
    assert ToggleMessage(false) == "healthcheck toggled to false state";
    assert ToggleMessage(true) == "healthcheck toggled to true state";

    var r := server.Handle(query, None);
    assert r == Some(Html(OK, "OK"));
    r := server.Handle(toggle, None);
    assert r == Some(Html(OK, "healthcheck toggled to false state"));
    r := server.Handle(query, None);
    assert r == Some(Html(SERVICE_UNAVAILABLE, "KO"));
    r := server.Handle(toggle, None);
    assert r == Some(Html(OK, "healthcheck toggled to true state"));
    r := server.Handle(query, None);
    assert r == Some(Html(OK, "OK"));
  }
}
