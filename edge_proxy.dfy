/** The streaming edge relay: preflight answered locally, GET and POST relayed. */
module EdgeProxy {
  import opened Wrappers
  import Text
  import opened Relay
  import FunctionsProxy

  /**
   * The inbound request, its URL already split by `new URL(...)` into `pathname`
   * and `search` (the query string with its '?', or empty).
   */
  datatype Request = Request(verb: string, pathname: string, search: string, headers: Headers, body: Option<string>)

  const AllowMethods := "GET, POST, OPTIONS"

  /** The fixed header record every response starts from. */
  function BaseHeaders(): Headers {
    CorsHeaders(AllowMethods)
  }

  /**
   * The upstream request: same method, the API host followed by the path with one
   * leading route prefix removed and the original query string, the defaulted headers,
   * and the body passed through.
   */
  function Forwarded(req: Request): (f: Forward)
    ensures f.verb == req.verb
    ensures f.url == AnthropicApi + Text.StripPrefix(req.pathname, RoutePrefix) + req.search
    ensures f.headers == ForwardHeaders(req.headers) && f.body == req.body
  {
    Forward(req.verb, AnthropicApi + Text.StripPrefix(req.pathname, RoutePrefix) + req.search,
            ForwardHeaders(req.headers), req.body)
  }

  /**
   * The default handler: `fetch` gives what the upstream call yields for a forwarded
   * request. OPTIONS is answered 200 with no body and never contacts upstream; methods
   * other than GET and POST get 405; a relayed answer keeps its status and body, with
   * the upstream content type (JSON when it has none) over the CORS set; a thrown
   * error becomes a 500 with the `{error, details}` envelope. Every response carries
   * the CORS headers.
   */
  function Handle(req: Request, fetch: Forward -> Upstream): (r: Response)
    ensures req.verb == "OPTIONS" ==> r == Response(200, BaseHeaders(), NoBody)
    ensures req.verb !in {"GET", "POST", "OPTIONS"} ==> r == Response(405, BaseHeaders(), Text(NotAllowed))
    ensures req.verb in {"GET", "POST"} && fetch(Forwarded(req)).Answered? ==>
      var up := fetch(Forwarded(req));
      r == Response(up.status,
                    BaseHeaders()["Content-Type" := HeaderOr(up.headers, "content-type", "application/json")],
                    Text(up.body))
    ensures req.verb in {"GET", "POST"} && fetch(Forwarded(req)).Failed? ==>
      r == Response(500, BaseHeaders(), ErrorJson(ProxyFailure, fetch(Forwarded(req)).message))
    ensures r.headers.Keys == BaseHeaders().Keys
    ensures forall h :: h in r.headers && h != "Content-Type" ==> r.headers[h] == BaseHeaders()[h]
  {
    var headers := BaseHeaders();
    if req.verb == "OPTIONS" then
      Response(200, headers, NoBody)
    else if req.verb != "POST" && req.verb != "GET" then
      Response(405, headers, Text(NotAllowed))
    else
      match fetch(Forwarded(req))
      case Answered(status, upstreamHeaders, text) =>
        Response(status, headers["Content-Type" := HeaderOr(upstreamHeaders, "content-type", "application/json")], Text(text))
      case Failed(message) =>
        Response(500, headers, ErrorJson(ProxyFailure, message))
  }

  /**
   * The two relays agree on a POST without query string whose path does not carry the
   * function prefix: the same request goes upstream, and the same status and body
   * come back (only the advertised methods and the content type may differ).
   */
  lemma RelaysAgreeOnPost(path: string, headers: Headers, body: Option<string>, fetch: Forward -> Upstream)
    requires !(FunctionsProxy.FunctionPrefix <= path)
    ensures var e := FunctionsProxy.Event("POST", path, headers, body);
            var req := Request("POST", path, "", headers, body);
            && FunctionsProxy.Forwarded(e) == Forwarded(req)
            && FunctionsProxy.Handle(e, fetch).status == Handle(req, fetch).status
            && FunctionsProxy.Handle(e, fetch).body == Handle(req, fetch).body
  {
    var e := FunctionsProxy.Event("POST", path, headers, body);
    var req := Request("POST", path, "", headers, body);
    assert FunctionsProxy.UpstreamPath(path) + "" == Text.StripPrefix(path, RoutePrefix);
    assert FunctionsProxy.Forwarded(e).url == Forwarded(req).url;
  }
}
