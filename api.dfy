/**
 * The authorised request wrapper (`useApi().fetchWithAuth` in utils/api.ts):
 * it builds the outgoing headers and options from the caller's, hands them
 * to `fetch`, and turns a 401 into a redirect to the login page plus a
 * thrown "Unauthorized".
 */
module Api {
  import opened Wrappers
  import opened Http
  import Session

  const Unauthorized := Error("Unauthorized")

  /** JavaScript truthiness of the session token: present and not empty. */
  predicate HoldsToken(token: Option<string>)
  {
    token.Some? && token.value != ""
  }

  /** `options.headers || {}`. */
  function CallerHeaders(options: RequestInit): HeaderMap
  {
    if options.headers.Some? then options.headers.value else map[]
  }

  /**
   * The headers `fetchWithAuth` sends: the caller's, with `Content-Type`
   * forced to JSON and, when a token is held, `Authorization` replaced by
   * its bearer form.
   */
  function OutgoingHeaders(given: HeaderMap, token: Option<string>): (h: HeaderMap)
    ensures ContentType in h && h[ContentType] == JsonMediaType
    ensures HoldsToken(token) ==> Authorization in h && h[Authorization] == "Bearer " + token.value
    ensures !HoldsToken(token) ==> (Authorization in h <==> Authorization in given)
    ensures !HoldsToken(token) && Authorization in given ==> h[Authorization] == given[Authorization]
    ensures forall name :: name != ContentType && name != Authorization ==> (name in h <==> name in given)
    ensures forall name :: name in given && name != ContentType && name != Authorization ==> h[name] == given[name]
  {
    var withType := given[ContentType := JsonMediaType];
    if HoldsToken(token) then withType[Authorization := "Bearer " + token.value] else withType
  }

  /** Lines that build a `Headers` object and `set` on it one entry at a time. */
  method BuildHeaders(options: RequestInit, token: Option<string>) returns (headers: HeaderMap)
    ensures headers == OutgoingHeaders(CallerHeaders(options), token)
  {
    headers := CallerHeaders(options);
    headers := headers[ContentType := JsonMediaType];
    if HoldsToken(token) {
      headers := headers[Authorization := "Bearer " + token.value];
    }
  }

  /** `{ ...options, credentials: 'include', headers }`. */
  function OutgoingInit(options: RequestInit, headers: HeaderMap): (init: RequestInit)
    ensures init.credentials == Some(Include)
    ensures init.headers == Some(headers)
    ensures init.httpMethod == options.httpMethod && init.body == options.body
    ensures init.mode == options.mode && init.cache == options.cache
  {
    options.(credentials := Some(Include), headers := Some(headers))
  }

  /** What a call of `fetchWithAuth` settles to, and where it sends the browser. */
  datatype FetchResult = FetchResult(result: Result<Response, Error>, navigateTo: Option<string>)

  /**
   * The status rule: a 401 sends the browser to the login page and throws;
   * every other response is handed back as it came, with no navigation.
   */
  function HandleResponse(response: Response): (r: FetchResult)
    ensures r.result.Failure? <==> response.status == 401
    ensures r.navigateTo.Some? <==> response.status == 401
    ensures r.result.Failure? ==> r.result.error == Unauthorized && r.navigateTo == Some(Session.LoginPath)
    ensures r.result.Success? ==> r.result.value == response && r.result.value.status != 401
  {
    if response.status == 401 then
      FetchResult(Failure(Unauthorized), Some(Session.LoginPath))
    else
      FetchResult(Success(response), None)
  }

  /**
   * `fetchWithAuth(url, options)` with the session token `token`; `reply`
   * is how the underlying `fetch` settles.  `sent` is the request handed to
   * `fetch`.
   */
  method FetchWithAuth(url: string, options: RequestInit, token: Option<string>, reply: Reply)
    returns (sent: Request, outcome: FetchResult)
    ensures sent == Request(url, OutgoingInit(options, OutgoingHeaders(CallerHeaders(options), token)))
    ensures reply.Rejected? ==> outcome == FetchResult(Failure(reply.error), None)
    ensures reply.Replied? ==> outcome == HandleResponse(reply.response)
    ensures outcome.result.Success? ==> reply.Replied? && outcome.result.value == reply.response
    ensures outcome.result.Success? ==> outcome.result.value.status != 401
    ensures outcome.navigateTo.Some? <==> reply.Replied? && reply.response.status == 401
  {
    var headers := BuildHeaders(options, token);
    sent := Request(url, OutgoingInit(options, headers));
    match reply
    case Rejected(e) =>
      outcome := FetchResult(Failure(e), None);
    case Replied(response) =>
      outcome := HandleResponse(response);
  }

  /**
   * The 401 path leaves `localStorage` alone, and assigning
   * `window.location.href` reloads the page; so the provider that mounts on
   * the login page restores the very user whose session the server has just
   * refused.
   */
  lemma UnauthorizedReloadRestoresStaleUser(s: Session.State, response: Response)
    requires Session.Invariant(s) && s.user.Some?
    requires response.status == 401
    ensures HandleResponse(response).navigateTo == Some(Session.LoginPath)
    ensures var remounted := Session.Initial(s.storage, HandleResponse(response).navigateTo.value);
      Session.RestoreStep(remounted).state.user == s.user
  {
  }

  /**
   * `useApi` as written reads `sessionToken` from the context value, which
   * has no such field: the token it sees is always `undefined`.  Outside a
   * provider, the `useAuth` inside it throws.
   */
  function UseApiToken(context: Option<Session.ContextValue>): (r: Result<Option<string>, Error>)
    ensures r.Failure? <==> context.None?
    ensures r.Failure? ==> r.error == Session.OutsideProvider
    ensures r.Success? ==> r.value == None
  {
    match Session.UseAuth(context)
    case Failure(e) => Failure(e)
    case Success(_) => Success(None)
  }

  /**
   * Hence, as written, no request made inside a provider carries a bearer
   * header, whoever is signed in: the caller's headers go out with only
   * the content type forced, and the branch that sets `Authorization` is
   * never taken.
   */
  lemma AsWrittenSendsNoBearer(context: Session.ContextValue, given: HeaderMap)
    ensures UseApiToken(Some(context)) == Success(None)
    ensures OutgoingHeaders(given, UseApiToken(Some(context)).value) == given[ContentType := JsonMediaType]
  {
  }

  /** The concrete case: a signed-in administrator calling with no headers sends no `authorization`. */
  lemma AsWrittenAdminSendsNoBearer(u: Session.User)
    requires u.isAdmin
    ensures var context := Some(Session.ContextValue(Some(u), false));
      && UseApiToken(context).Success?
      && Authorization !in OutgoingHeaders(map[], UseApiToken(context).value)
  {
    AsWrittenSendsNoBearer(Session.ContextValue(Some(u), false), map[]);
  }

  /** With a token actually held, the corrected wrapper does attach it. */
  lemma HeldTokenIsSent(token: string, options: RequestInit)
    requires token != ""
    ensures OutgoingHeaders(CallerHeaders(options), Some(token))[Authorization] == "Bearer " + token
  {
  }
}
