/** The buffered serverless relay: POST only, path rewritten, upstream answer relayed. */
module FunctionsProxy {
  import opened Wrappers
  import Text
  import opened Relay

  /** The inbound event: method, path (no query string), lower-cased headers and raw body. */
  datatype Event = Event(httpMethod: string, path: string, headers: Headers, body: Option<string>)

  const FunctionPrefix := "/.netlify/functions/anthropic-proxy"
  const AllowMethods := "POST, OPTIONS"

  /**
   * The path sent upstream: one leading function prefix removed, then one leading
   * route prefix removed, each only when the path literally starts with it.
   */
  function UpstreamPath(path: string): (r: string)
    ensures |r| <= |path| && r == path[|path| - |r|..]
    ensures !(FunctionPrefix <= path) && !(RoutePrefix <= path) ==> r == path
    ensures FunctionPrefix + RoutePrefix <= path ==> FunctionPrefix + RoutePrefix + r == path
    ensures !(FunctionPrefix <= path) && RoutePrefix <= path ==> RoutePrefix + r == path
    ensures FunctionPrefix <= path && !(FunctionPrefix + RoutePrefix <= path) ==> FunctionPrefix + r == path
  {
    Text.StripPrefix(Text.StripPrefix(path, FunctionPrefix), RoutePrefix)
  }

  /** Each prefix goes at most once: a doubled route prefix leaves one copy behind. */
  lemma StripsRoutePrefixOnce(rest: string)
    ensures UpstreamPath(RoutePrefix + RoutePrefix + rest) == RoutePrefix + rest
  {
    var p := RoutePrefix + RoutePrefix + rest;
    assert !(FunctionPrefix <= p) by { assert p[1] != FunctionPrefix[1]; }
    assert RoutePrefix <= p;
    assert p[|RoutePrefix|..] == RoutePrefix + rest;
  }

  /**
   * The upstream request: always POST, to the API host followed by the rewritten
   * path (the query string is dropped), with the defaulted headers and the body as received.
   */
  function Forwarded(e: Event): (f: Forward)
    ensures f.verb == "POST"
    ensures AnthropicApi <= f.url && f.url[|AnthropicApi|..] == UpstreamPath(e.path)
    ensures f.headers == ForwardHeaders(e.headers) && f.body == e.body
  {
    Forward("POST", AnthropicApi + UpstreamPath(e.path), ForwardHeaders(e.headers), e.body)
  }

  /**
   * `handler`: `fetch` gives what the upstream call yields for a forwarded request.
   * Every method but POST, OPTIONS included, is refused without CORS headers; a POST
   * relays the upstream status and text with the CORS set, and a thrown error becomes
   * a 500 carrying the `{error, details}` envelope and no headers.
   */
  function Handle(e: Event, fetch: Forward -> Upstream): (r: Response)
    ensures e.httpMethod != "POST" ==> r == Response(405, map[], Text(NotAllowed))
    ensures e.httpMethod == "POST" && fetch(Forwarded(e)).Answered? ==>
      r == Response(fetch(Forwarded(e)).status, CorsHeaders(AllowMethods), Text(fetch(Forwarded(e)).body))
    ensures e.httpMethod == "POST" && fetch(Forwarded(e)).Failed? ==>
      r == Response(500, map[], ErrorJson(ProxyFailure, fetch(Forwarded(e)).message))
    ensures r.headers == map[] <==> e.httpMethod != "POST" || fetch(Forwarded(e)).Failed?
  {
    if e.httpMethod != "POST" then
      Response(405, map[], Text(NotAllowed))
    else
      match fetch(Forwarded(e))
      case Answered(status, _, text) => Response(status, CorsHeaders(AllowMethods), Text(text))
      case Failed(message) => Response(500, map[], ErrorJson(ProxyFailure, message))
  }
}
