/**
 * The pieces of the Fetch API that the session layer touches: header maps,
 * request options, responses and thrown errors.  The network itself is not
 * part of the model; a response (or a rejection) is always an input.
 */
module Http {
  import opened Wrappers

  /** A JavaScript `Error`: only its message matters to the session layer. */
  datatype Error =
    | Error(message: string)
      /** What `JSON.parse` throws on text that is not JSON. */
    | SyntaxError(text: string)

  /**
   * A header list, keyed by header name in the lower-case form that the
   * Fetch standard's `Headers` object stores names in.
   */
  type HeaderMap = map<string, string>

  const ContentType := "content-type"
  const Authorization := "authorization"
  const JsonMediaType := "application/json"

  /** `RequestInit.credentials`. */
  datatype Credentials = Omit | SameOrigin | Include

  /** A request body: plain text, or `JSON.stringify` of a flat object of strings. */
  datatype Body = Text(text: string) | JsonObject(fields: seq<(string, string)>)

  /**
   * `RequestInit`: every field is optional, as in the Fetch API.  `mode` and
   * `cache` stand for the fields the session layer never looks at.
   */
  datatype RequestInit = RequestInit(
    httpMethod: Option<string>,
    headers: Option<HeaderMap>,
    body: Option<Body>,
    credentials: Option<Credentials>,
    mode: Option<string>,
    cache: Option<string>)

  /** What is handed to `fetch`: a URL and its options. */
  datatype Request = Request(url: string, init: RequestInit)

  datatype Response = Response(status: int, headers: HeaderMap, body: string)

  /** `Response.ok`: the status lies in the range 200-299. */
  predicate IsOk(status: int)
  {
    200 <= status <= 299
  }

  /** How the awaited `fetch` settles: with a response, or by rejecting. */
  datatype Reply = Replied(response: Response) | Rejected(error: Error)
}
