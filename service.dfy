/** The shared request helper every service delegates to: configuration, header selection
    (service-role key or anonymous key, and the `Authorization: Bearer` header of section 2.1
    of RFC 6750), the merge of caller headers, the default JSON body, and the mapping of a
    response or transport failure to a return value or one of the error kinds. The network is
    an oracle `net` from the request put on the wire to its outcome. */
module Service {
  import opened Wrappers
  import opened Json
  import Text

  // ---------------------------------------------------------------- errors

  /** Why a `SupabaseAuthError` was raised. */
  datatype AuthCause =
    | MissingServiceRoleKey                 // admin request without a service-role key
    | Rejected(status: int, details: Json)  // the server answered 401 or 403

  /** The exceptions the services raise, by kind. */
  datatype Error =
    | ValueError(message: string)
    | TypeError(message: string)
    | AttributeError(message: string)
    | AuthError(cause: AuthCause)                        // SupabaseAuthError
    | ApiError(statusCode: Option<int>, details: Json)   // SupabaseAPIError
    | SupabaseError(message: string)                     // the base SupabaseError
    | UnexpectedError(message: string)                   // a bare Exception wrapping another
    | HttpException(httpStatus: int, detail: string)   // the web framework's HTTP error
    | Raised(message: string)                            // a foreign exception, propagated as is

  /** `SupabaseAPIError(status_code=..., details=...)`, which stores `details or {}`. */
  function ApiErrorOf(statusCode: Option<int>, details: Json): (e: Error)
    ensures e.ApiError? && e.statusCode == statusCode
    ensures Truthy(details) ==> e.details == details
    ensures !Truthy(details) ==> e.details == EmptyObject
  {
    ApiError(statusCode, OrEmpty(details))
  }

  const SERVICE_ROLE_REQUIRED := "Service role key is required" + " for admin operations"
  const CONNECTION_MESSAGE := "Connection error: Unable " + "to connect to Supabase API. " + "Check your network " + "connection and Supabase URL."
  const REQUEST_ERROR_PREFIX := "Request error: "
  const UNEXPECTED_PREFIX := "Unexpected error during Supabase request: "

  function TimeoutMessage(seconds: nat): string {
    "Request timeout: The request to Supabase API timed out after " + Text.NatToString(seconds) + " seconds."
  }

  // --------------------------------------------------------- configuration

  /** The settings a service reads; an unset setting is the empty string. */
  datatype Config = Config(baseUrl: string, anonKey: string, serviceRoleKey: string)

  const URL_NOT_SET := "SUPABASE_URL is not set in settings"
  const ANON_KEY_NOT_SET := "SUPABASE_ANON_KEY is not set in settings"

  /** `SupabaseService.__init__`: the URL and the anonymous key are required, in that order;
      a missing service-role key is accepted (it only disables admin requests). */
  function NewConfig(url: string, anonKey: string, serviceRoleKey: string): (r: Result<Config, Error>)
    ensures r.Ok? <==> url != "" && anonKey != ""
    ensures r.Ok? ==> r.value == Config(url, anonKey, serviceRoleKey)
    ensures url == "" ==> r == Err(ValueError(URL_NOT_SET))
    ensures url != "" && anonKey == "" ==> r == Err(ValueError(ANON_KEY_NOT_SET))
  {
    if url == "" then Err(ValueError(URL_NOT_SET))
    else if anonKey == "" then Err(ValueError(ANON_KEY_NOT_SET))
    else Ok(Config(url, anonKey, serviceRoleKey))
  }

  // --------------------------------------------------------------- headers

  const CONTENT_TYPE := "Content-Type"
  const JSON_MIME := "application/json"
  const API_KEY := "apikey"
  const AUTHORIZATION := "Authorization"

  /** The credentials of an `Authorization` header (section 2.1 of RFC 6750). */
  function Bearer(credential: string): string {
    "Bearer " + credential
  }

  /** `_get_headers`: the default headers of a request. */
  function Headers(cfg: Config, token: Option<string>, isAdmin: bool): (r: Result<map<string, string>, Error>)
    ensures r.Err? <==> isAdmin && cfg.serviceRoleKey == ""
    ensures r.Err? ==> r.error == AuthError(MissingServiceRoleKey)
    ensures r.Ok? ==> CONTENT_TYPE in r.value && r.value[CONTENT_TYPE] == JSON_MIME && API_KEY in r.value
    ensures r.Ok? && isAdmin ==>
      r.value.Keys == {CONTENT_TYPE, API_KEY, AUTHORIZATION}
      && r.value[API_KEY] == cfg.serviceRoleKey
      && r.value[AUTHORIZATION] == Bearer(cfg.serviceRoleKey)
    ensures r.Ok? && !isAdmin ==> r.value[API_KEY] == cfg.anonKey
    ensures r.Ok? && !isAdmin && Given(token) ==>
      r.value.Keys == {CONTENT_TYPE, API_KEY, AUTHORIZATION} && r.value[AUTHORIZATION] == Bearer(token.value)
    ensures r.Ok? && !isAdmin && !Given(token) ==> r.value.Keys == {CONTENT_TYPE, API_KEY}
  {
    var headers := map[CONTENT_TYPE := JSON_MIME, API_KEY := if isAdmin then cfg.serviceRoleKey else cfg.anonKey];
    if isAdmin then
      if cfg.serviceRoleKey == "" then Err(AuthError(MissingServiceRoleKey))
      else Ok(headers[AUTHORIZATION := Bearer(cfg.serviceRoleKey)])
    else if Given(token) then Ok(headers[AUTHORIZATION := Bearer(token.value)])
    else Ok(headers)
  }

  /** The headers declare a JSON body. */
  predicate DeclaresJson(headers: map<string, string>) {
    CONTENT_TYPE in headers && headers[CONTENT_TYPE] == JSON_MIME
  }

  // -------------------------------------------------------------- requests

  const DEFAULT_TIMEOUT: nat := 30

  /** The arguments of one `_make_request` call: a request descriptor. An empty `params` or
      `headers` map stands for both `None` and `{}`, which the helper treats alike. */
  datatype Request = Request(
    verb: string,
    endpoint: string,
    token: Option<string> := None,
    isAdmin: bool := false,
    body: Option<Json> := None,
    params: map<string, Json> := map[],
    headers: map<string, string> := map[],
    timeout: nat := DEFAULT_TIMEOUT)

  /** A request that passes no query parameters and no extra headers and keeps the default
      timeout. */
  predicate Plain(req: Request) {
    req.headers == map[] && req.params == map[] && req.timeout == DEFAULT_TIMEOUT
  }

  /** What is handed to the HTTP client. */
  datatype Wire = Wire(
    verb: string,
    url: string,
    headers: map<string, string>,
    body: Option<Json>,
    params: map<string, Json>,
    timeout: nat)

  /** The part of `_make_request` before the network: default headers (which may fail),
      the caller's headers merged over them key by key, and `{}` as the body when there is
      none and the merged headers still declare JSON. */
  function Prepare(cfg: Config, req: Request): (r: Result<Wire, Error>)
    ensures r.Err? <==> req.isAdmin && cfg.serviceRoleKey == ""
    ensures r.Err? ==> r.error == AuthError(MissingServiceRoleKey)
    ensures r.Ok? ==>
      var defaults := Headers(cfg, req.token, req.isAdmin).value;
      && r.value.verb == req.verb
      && r.value.url == cfg.baseUrl + req.endpoint
      && r.value.params == req.params
      && r.value.timeout == req.timeout
      && r.value.headers.Keys == defaults.Keys + req.headers.Keys
      && (forall k :: k in req.headers ==> r.value.headers[k] == req.headers[k])
      && (forall k :: k in defaults && k !in req.headers ==> r.value.headers[k] == defaults[k])
    ensures r.Ok? && req.body.Some? ==> r.value.body == req.body
    ensures r.Ok? && req.body.None? && DeclaresJson(r.value.headers) ==> r.value.body == Some(EmptyObject)
    ensures r.Ok? && req.body.None? && !DeclaresJson(r.value.headers) ==> r.value.body.None?
  {
    match Headers(cfg, req.token, req.isAdmin)
    case Err(e) => Err(e)
    case Ok(defaults) =>
      var headers := if req.headers != map[] then defaults + req.headers else defaults;
      var body := if req.body.None? && DeclaresJson(headers) then Some(EmptyObject) else req.body;
      Ok(Wire(req.verb, cfg.baseUrl + req.endpoint, headers, body, req.params, req.timeout))
  }

  // -------------------------------------------------------------- outcomes

  /** The content of a response: empty, JSON, or text that does not parse as JSON. */
  datatype Body = NoContent | JsonContent(value: Json) | TextContent(text: string, decodeError: string)

  /** What the HTTP client reports for one request. */
  datatype Outcome =
    | Response(status: int, body: Body)
    | ConnectionFailure(detail: string)  // a connection error, a connect timeout included
    | ReadTimeout(detail: string)        // any other timeout
    | RequestFailure(detail: string)     // any other exception of the HTTP client
    | OtherFailure(detail: string)       // any other exception raised while requesting

  /** The statuses for which the HTTP client's `raise_for_status` raises. */
  predicate IsErrorStatus(status: int) {
    400 <= status < 600
  }

  /** Statuses that are authentication failures (sections 15.5.2 and 15.5.4 of RFC 9110). */
  predicate IsAuthStatus(status: int) {
    status == 401 || status == 403
  }

  /** `_parse_error_response`: the JSON body, or `{status, message}` when the body is not JSON. */
  function ParseErrorResponse(status: int, body: Body): (details: Json)
    ensures body.JsonContent? ==> details == body.value
    ensures !body.JsonContent? ==>
      details.JObj? && details.fields.Keys == {"status", "message"} && details.fields["status"] == JInt(status)
    ensures body.TextContent? ==> details.fields["message"] == JStr(body.text)
    ensures body.NoContent? ==> details.fields["message"] == JStr("")
  {
    match body
    case JsonContent(j) => j
    case TextContent(text, _) => JObj(map["status" := JInt(status), "message" := JStr(text)])
    case NoContent => JObj(map["status" := JInt(status), "message" := JStr("")])
  }

  /** The status/exception mapping of `_make_request`. */
  function Classify(outcome: Outcome, timeout: nat): (r: Result<Json, Error>)
    ensures r.Ok? <==> outcome.Response? && !IsErrorStatus(outcome.status) && !outcome.body.TextContent?
    ensures r.Ok? ==> r.value == if outcome.body.JsonContent? then outcome.body.value else EmptyObject
    ensures r.Err? && r.error.AuthError? <==> outcome.Response? && IsAuthStatus(outcome.status)
    ensures outcome.Response? && IsAuthStatus(outcome.status) ==>
      r.error.cause == Rejected(outcome.status, ParseErrorResponse(outcome.status, outcome.body))
    ensures r.Err? && r.error.ApiError? <==>
      outcome.Response? && IsErrorStatus(outcome.status) && !IsAuthStatus(outcome.status)
    ensures r.Err? && r.error.ApiError? ==>
      r.error == ApiErrorOf(Some(outcome.status), ParseErrorResponse(outcome.status, outcome.body))
    ensures outcome.Response? && !IsErrorStatus(outcome.status) && outcome.body.TextContent? ==>
      r == Err(SupabaseError(REQUEST_ERROR_PREFIX + outcome.body.decodeError))
    ensures outcome.ConnectionFailure? ==> r == Err(SupabaseError(CONNECTION_MESSAGE))
    ensures outcome.ReadTimeout? ==> r == Err(SupabaseError(TimeoutMessage(timeout)))
    ensures outcome.RequestFailure? ==> r == Err(SupabaseError(REQUEST_ERROR_PREFIX + outcome.detail))
    ensures outcome.OtherFailure? ==> r == Err(UnexpectedError(UNEXPECTED_PREFIX + outcome.detail))
  {
    match outcome
    case Response(status, body) =>
      if IsAuthStatus(status) then Err(AuthError(Rejected(status, ParseErrorResponse(status, body))))
      else if IsErrorStatus(status) then Err(ApiErrorOf(Some(status), ParseErrorResponse(status, body)))
      else (
        match body
        case NoContent => Ok(EmptyObject)
        case JsonContent(j) => Ok(j)
        case TextContent(_, decodeError) => Err(SupabaseError(REQUEST_ERROR_PREFIX + decodeError)))
    case ConnectionFailure(_) => Err(SupabaseError(CONNECTION_MESSAGE))
    case ReadTimeout(_) => Err(SupabaseError(TimeoutMessage(timeout)))
    case RequestFailure(detail) => Err(SupabaseError(REQUEST_ERROR_PREFIX + detail))
    case OtherFailure(detail) => Err(UnexpectedError(UNEXPECTED_PREFIX + detail))
  }

  /** `_make_request` as a whole: the value returned or the error raised when `net` answers. */
  function Perform(cfg: Config, net: Wire -> Outcome, req: Request): Result<Json, Error> {
    match Prepare(cfg, req)
    case Err(e) => Err(e)
    case Ok(wire) => Classify(net(wire), wire.timeout)
  }

  /** `_make_request`, step by step; `sent` is the request put on the wire, if any. */
  method MakeRequest(cfg: Config, net: Wire -> Outcome, req: Request) returns (r: Result<Json, Error>, sent: Option<Wire>)
    ensures sent.None? <==> req.isAdmin && cfg.serviceRoleKey == ""
    ensures sent.Some? ==> Prepare(cfg, req) == Ok(sent.value)
    ensures r == Perform(cfg, net, req)
  {
    var url := cfg.baseUrl + req.endpoint;
    var defaults := Headers(cfg, req.token, req.isAdmin);
    if defaults.Err? {
      return Err(defaults.error), None;
    }
    var requestHeaders := defaults.value;
    if req.headers != map[] {
      requestHeaders := requestHeaders + req.headers;
    }
    var data := req.body;
    if data.None? && CONTENT_TYPE in requestHeaders && requestHeaders[CONTENT_TYPE] == JSON_MIME {
      data := Some(EmptyObject);
    }
    var wire := Wire(req.verb, url, requestHeaders, data, req.params, req.timeout);
    sent := Some(wire);
    r := Classify(net(wire), req.timeout);
  }

  // ---------------------------------------------------------------- lemmas

  /** An admin request without a service-role key fails with an authentication error
      whatever the network would have answered: nothing is sent. */
  lemma AdminWithoutKeyNeverReachesNetwork(cfg: Config, req: Request, net1: Wire -> Outcome, net2: Wire -> Outcome)
    requires req.isAdmin && cfg.serviceRoleKey == ""
    ensures Perform(cfg, net1, req) == Perform(cfg, net2, req) == Err(AuthError(MissingServiceRoleKey))
  {
  }

  /** A request whose headers already hold every default header (as `invoke_function` builds
      them) goes on the wire with exactly those headers: merging again changes nothing. */
  lemma PremergedHeadersSurvive(cfg: Config, req: Request)
    requires Headers(cfg, req.token, req.isAdmin).Ok?
    requires Headers(cfg, req.token, req.isAdmin).value.Keys <= req.headers.Keys
    ensures Prepare(cfg, req).Ok? && Prepare(cfg, req).value.headers == req.headers
  {
    var w := Prepare(cfg, req).value;
    assert w.headers.Keys == req.headers.Keys;
  }

  /** A caller `Content-Type` other than JSON keeps a missing body missing. */
  lemma CallerContentTypeKeepsBodyNone(cfg: Config, req: Request)
    requires !(req.isAdmin && cfg.serviceRoleKey == "")
    requires req.body.None? && CONTENT_TYPE in req.headers && req.headers[CONTENT_TYPE] != JSON_MIME
    ensures Prepare(cfg, req).Ok? && Prepare(cfg, req).value.body.None?
  {
  }

  /** The outcome decides the error kind: an authentication error exactly for 401 and 403,
      an API error carrying the status for the other error statuses, and a generic error
      for a transport failure. */
  lemma ErrorKindOfOutcome(cfg: Config, net: Wire -> Outcome, req: Request)
    requires Prepare(cfg, req).Ok?
    ensures var outcome := net(Prepare(cfg, req).value);
      var r := Perform(cfg, net, req);
      && (outcome.Response? && IsAuthStatus(outcome.status) <==> r.Err? && r.error.AuthError?)
      && ((outcome.Response? && IsErrorStatus(outcome.status) && !IsAuthStatus(outcome.status))
            <==> (r.Err? && r.error.ApiError? && r.error.statusCode == Some(outcome.status)))
      && (outcome.ConnectionFailure? || outcome.ReadTimeout? || outcome.RequestFailure? ==> r.Err? && r.error.SupabaseError?)
  {
  }
}
