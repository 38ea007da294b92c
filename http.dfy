/** Values exchanged with the HTTP framework: methods, requests, responses, status codes. */
module Http {

  datatype Option<T> = None | Some(value: T)

  /** The tokens of the standard methods, which the framework always parses to their own constructors. */
  const StandardTokens: set<string> := {"GET", "POST", "PUT", "DELETE", "HEAD", "OPTIONS", "CONNECT", "PATCH", "TRACE"}

  /** A character allowed in a method token ("tchar" of section 3.2.6 of RFC 7230). */
  predicate IsTokenChar(c: char)
  {
    ('A' <= c <= 'Z') || ('a' <= c <= 'z') || ('0' <= c <= '9') || c in "!#$%&'*+-.^_`|~"
  }

  /** The token of an extension method: a non-empty token that is none of the standard ones. */
  type ExtensionToken = s: string | |s| > 0 && (forall i :: 0 <= i < |s| ==> IsTokenChar(s[i])) && s !in StandardTokens
    witness "PROPFIND"

  /** The request methods the framework distinguishes; any other token is an extension method. */
  datatype Method = Get | Post | Put | Delete | Head | Options | Connect | Patch | Trace | Extension(token: ExtensionToken)

  /** An inbound request: only what the core looks at (method and path) plus what it ignores. */
  datatype Request = Request(verb: Method, path: string, headers: seq<(string, string)>, payload: seq<bv8>)

  /** A response body: literal text, nothing at all, or a diagnostic page whose content is not modelled. */
  datatype Body = Text(text: string) | Empty | Diagnostic

  datatype Response = Response(status: nat, contentType: Option<string>, body: Body)

  const OK: nat := 200
  const NOT_FOUND: nat := 404
  const METHOD_NOT_ALLOWED: nat := 405
  const SERVICE_UNAVAILABLE: nat := 503

  /** The content type every handler of the service sets. */
  const TEXT_HTML: string := "text/html; charset=utf-8"

  /** A text response with the service's content type. */
  function Html(status: nat, text: string): Response
  {
    Response(status, Some(TEXT_HTML), Text(text))
  }
}
