/**
 * The handlers' replies as functions. Each handler answers with status, content
 * type and body. The version, logger, 404, health and toggle handlers use the
 * request they receive at most for logging, so it never influences their reply; the
 * pages of the main and debug handlers, which do depend on the request, are not
 * represented here.
 */
module Handlers {
  import opened Http

  /** The version the service reports. */
  const DCR_VERSION: string := "0.1"

  const TOGGLE_PREFIX: string := "healthcheck toggled to "
  const TOGGLE_SUFFIX: string := " state"

  /**
   * The version handler: the constant version, whatever the request and whatever the
   * request body, which the framework hands to the handler's second argument as text.
   */
  function VersionResponse(req: Request, bodyText: string): (r: Response)
    ensures r.status == OK && r.contentType == Some(TEXT_HTML)
    ensures r.body == Text("0.1")
  {
    Html(OK, DCR_VERSION)
  }

  /** The logger handler: a fixed acknowledgement; the request payload is not read. */
  function LoggerResponse(req: Request): (r: Response)
    ensures r.status == OK && r.contentType == Some(TEXT_HTML)
    ensures r.body == Text("input written to log")
  {
    Html(OK, "input written to log")
  }

  /** The 404 page of the default service. */
  function NotFoundResponse(req: Request): (r: Response)
    ensures r.status == NOT_FOUND && r.contentType == Some(TEXT_HTML)
    ensures r.body == Text("NOT FOUND")
  {
    Html(NOT_FOUND, "NOT FOUND")
  }

  /** The default service's reply to every method but GET: a bare 405 with no body and no content type. */
  function MethodNotAllowedResponse(): (r: Response)
    ensures r.status == METHOD_NOT_ALLOWED && r.contentType.None? && r.body.Empty?
  {
    Response(METHOD_NOT_ALLOWED, None, Empty)
  }

  /** The main and debug handlers answer 200 with an HTML page whose content is not modelled. */
  function DiagnosticResponse(req: Request): (r: Response)
    ensures r.status == OK && r.contentType == Some(TEXT_HTML) && r.body.Diagnostic?
  {
    Response(OK, Some(TEXT_HTML), Diagnostic)
  }

  /** The health query's reply for a given flag: 200 "OK" when healthy, 503 "KO" when not. */
  function HealthResponse(healthy: bool): (r: Response)
    ensures r.status == OK <==> healthy
    ensures r.status == SERVICE_UNAVAILABLE <==> !healthy
    ensures r.body == Text(if healthy then "OK" else "KO")
    ensures r.contentType == Some(TEXT_HTML)
  {
    if healthy then Html(OK, "OK") else Html(SERVICE_UNAVAILABLE, "KO")
  }

  /** How a boolean is written when formatted for display. */
  function BoolText(b: bool): string
  {
    if b then "true" else "false"
  }

  /** The toggle's message, naming the state the flag was set to. */
  function ToggleMessage(hc: bool): string
  {
    TOGGLE_PREFIX + BoolText(hc) + TOGGLE_SUFFIX
  }

  /** The toggle handler's reply once the flag holds `hc`. */
  function ToggleResponse(hc: bool): (r: Response)
    ensures r.status == OK && r.contentType == Some(TEXT_HTML)
    ensures r.body.Text? && ReadToggleMessage(r.body.text) == Some(hc)
  {
    ToggleMessageRoundTrip(hc);
    Html(OK, ToggleMessage(hc))
  }

  /** What a client reads back from a toggle message: the state it names, if it is one. */
  function ReadToggleMessage(s: string): (r: Option<bool>)
  {
    var lo, hi := |TOGGLE_PREFIX|, |s| - |TOGGLE_SUFFIX|;
    if lo <= hi && s[..lo] == TOGGLE_PREFIX && s[hi..] == TOGGLE_SUFFIX then
      var middle := s[lo..hi];
      if middle == "true" then Some(true)
      else if middle == "false" then Some(false)
      else None
    else None
  }

  /** The toggle message names exactly the new state: reading it back gives that state. */
  lemma ToggleMessageRoundTrip(hc: bool)
    ensures ReadToggleMessage(ToggleMessage(hc)) == Some(hc)
  {
  }

  /** A message that reads back as `b` is exactly the toggle message for `b`. */
  lemma ReadBackFixesBody(s: string, b: bool)
    requires ReadToggleMessage(s) == Some(b)
    ensures s == ToggleMessage(b)
  {
    var lo, hi := |TOGGLE_PREFIX|, |s| - |TOGGLE_SUFFIX|;
    assert s == s[..lo] + s[lo..hi] + s[hi..];
  }

  /** Different states give different toggle replies. */
  lemma ToggleResponseInjective(a: bool, b: bool)
    ensures ToggleResponse(a) == ToggleResponse(b) <==> a == b
  {
  }
}
