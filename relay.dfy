/** What the two Anthropic relays share: message shapes and the forwarded headers. */
module Relay {
  import opened Wrappers

  /** Header names are the lower-case names the hosting runtime hands over. */
  type Headers = map<string, string>

  const AnthropicApi := "https://api.anthropic.com"
  const RoutePrefix := "/api/anthropic"
  const DefaultVersion := "2023-06-01"
  const AllowHeaders := "Content-Type, x-api-key, anthropic-version, anthropic-dangerous-direct-browser-access"
  const NotAllowed := "Method Not Allowed"
  const ProxyFailure := "Failed to proxy request"

  /** A response body: none, text passed through, or the `{error, details}` JSON envelope. */
  datatype Body = NoBody | Text(text: string) | ErrorJson(error: string, details: string)

  datatype Response = Response(status: int, headers: Headers, body: Body)

  /** The request sent on to the Anthropic API. */
  datatype Forward = Forward(verb: string, url: string, headers: Headers, body: Option<string>)

  /** What the upstream call produced: a response, or a thrown error with its message. */
  datatype Upstream = Answered(status: int, headers: Headers, body: string) | Failed(message: string)

  /** `h[name] || fallback`: an absent or empty header takes the fallback. */
  function HeaderOr(h: Headers, name: string, fallback: string): (v: string)
    ensures name in h && h[name] != "" ==> v == h[name]
    ensures !(name in h && h[name] != "") ==> v == fallback
  {
    if name in h && h[name] != "" then h[name] else fallback
  }

  /**
   * The headers both relays send upstream: a JSON content type, the caller's API key
   * (empty when missing), the caller's API version (2023-06-01 when missing) and the
   * direct-browser-access opt-in. Nothing else of the inbound headers is forwarded.
   */
  function ForwardHeaders(inbound: Headers): (h: Headers)
    ensures h.Keys == {"Content-Type", "x-api-key", "anthropic-version", "anthropic-dangerous-direct-browser-access"}
    ensures h["Content-Type"] == "application/json"
    ensures h["x-api-key"] == HeaderOr(inbound, "x-api-key", "")
    ensures h["anthropic-version"] == HeaderOr(inbound, "anthropic-version", DefaultVersion)
    ensures h["anthropic-dangerous-direct-browser-access"] == "true"
  {
    map[
      "Content-Type" := "application/json",
      "x-api-key" := HeaderOr(inbound, "x-api-key", ""),
      "anthropic-version" := HeaderOr(inbound, "anthropic-version", DefaultVersion),
      "anthropic-dangerous-direct-browser-access" := "true"
    ]
  }

  /** The cross-origin header set, parameterised by the methods a relay advertises. */
  function CorsHeaders(allowMethods: string): (h: Headers)
    ensures h.Keys == {"Content-Type", "Access-Control-Allow-Origin", "Access-Control-Allow-Headers", "Access-Control-Allow-Methods"}
    ensures h["Access-Control-Allow-Origin"] == "*" && h["Access-Control-Allow-Methods"] == allowMethods
    ensures h["Access-Control-Allow-Headers"] == AllowHeaders && h["Content-Type"] == "application/json"
  {
    map[
      "Content-Type" := "application/json",
      "Access-Control-Allow-Origin" := "*",
      "Access-Control-Allow-Headers" := AllowHeaders,
      "Access-Control-Allow-Methods" := allowMethods
    ]
  }
}
