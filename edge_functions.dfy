/** The Edge Functions service: invoking a deployed function over `/functions/v1`, and the
    management calls, which are placeholders answering with fixed values and send nothing. */
module EdgeFunctions {
  import opened Wrappers
  import opened Json
  import opened Service

  function FunctionEndpoint(name: string): string {
    "/functions/v1/" + name
  }

  /** `invoke_function`: the default headers are computed first (so an admin call without a
      service-role key fails before anything is sent), the caller's headers are laid over them,
      and the merged headers, the method and the body as given go to `_make_request`.
      `req` is that call's descriptor. */
  method InvokeFunction(cfg: Config, net: Wire -> Outcome, name: string, invokeMethod: string := "POST",
                        body: Option<Json> := None, headers: map<string, string> := map[],
                        token: Option<string> := None, isAdmin: bool := false)
    returns (r: Result<Json, Error>, req: Option<Request>)
    ensures req.None? <==> isAdmin && cfg.serviceRoleKey == ""
    ensures req.None? ==> r == Err(AuthError(MissingServiceRoleKey))
    ensures req.Some? ==>
      var defaults := Headers(cfg, token, isAdmin).value;
      && req.value.verb == invokeMethod
      && req.value.endpoint == FunctionEndpoint(name)
      && req.value.token == token && req.value.isAdmin == isAdmin
      && req.value.body == body
      && req.value.params == map[] && req.value.timeout == DEFAULT_TIMEOUT
      && req.value.headers.Keys == defaults.Keys + headers.Keys
      && (forall k :: k in headers ==> req.value.headers[k] == headers[k])
      && (forall k :: k in defaults && k !in headers ==> req.value.headers[k] == defaults[k])
      && Prepare(cfg, req.value).Ok? && Prepare(cfg, req.value).value.headers == req.value.headers
      && r == Perform(cfg, net, req.value)
  {
    var endpoint := FunctionEndpoint(name);
    var defaults := Headers(cfg, token, isAdmin);
    if defaults.Err? {
      return Err(defaults.error), None;
    }
    var requestHeaders := defaults.value;
    if headers != map[] {
      requestHeaders := requestHeaders + headers;
    }
    var call := Request(invokeMethod, endpoint, token := token, isAdmin := isAdmin, body := body, headers := requestHeaders);
    PremergedHeadersSurvive(cfg, call);
    var sent;
    r, sent := MakeRequest(cfg, net, call);
    req := Some(call);
  }

  // ------------------------------------------------------------ placeholders

  const MOCK_CREATED := "MOCK_CREATED"
  const MOCK_ACTIVE := "MOCK_ACTIVE"
  const MOCK_UPDATED := "MOCK_UPDATED"
  const MOCK_DELETED := "MOCK_DELETED"

  /** A placeholder's answer: the function's name and a fixed status. */
  function MockFunction(name: string, status: string): (r: Json)
    ensures r.JObj? && r.fields.Keys == {"name", "status"}
    ensures r.fields["name"] == JStr(name) && r.fields["status"] == JStr(status)
  {
    JObj(map["name" := JStr(name), "status" := JStr(status)])
  }

  /** The name and the status a placeholder's answer reports. */
  function Reported(answer: Json): Option<(string, string)> {
    if answer.JObj? && "name" in answer.fields && "status" in answer.fields
       && answer.fields["name"].JStr? && answer.fields["status"].JStr?
    then Some((answer.fields["name"].s, answer.fields["status"].s))
    else None
  }

  /** A placeholder's answer reads back as the name and status it was made from. */
  lemma MockFunctionRoundTrip(name: string, status: string)
    ensures Reported(MockFunction(name, status)) == Some((name, status))
  {
  }

  /** `list_functions`: always the empty list. */
  function ListFunctions(): (r: seq<Json>)
    ensures |r| == 0
  {
    []
  }

  /** `create_function`: deploys nothing, whatever the source, JWT setting or import map. */
  function CreateFunction(name: string, sourceCode: string, verifyJwt: bool := true,
                          importMap: map<string, string> := map[]): (r: Json)
    ensures r.JObj? && r.fields.Keys == {"name", "status"}
    ensures Reported(r) == Some((name, MOCK_CREATED))
  {
    MockFunctionRoundTrip(name, MOCK_CREATED);
    MockFunction(name, MOCK_CREATED)
  }

  /** `get_function`. */
  function GetFunction(name: string): (r: Json)
    ensures r.JObj? && r.fields.Keys == {"name", "status"}
    ensures Reported(r) == Some((name, MOCK_ACTIVE))
  {
    MockFunctionRoundTrip(name, MOCK_ACTIVE);
    MockFunction(name, MOCK_ACTIVE)
  }

  /** `update_function`: changes nothing, whatever is asked. */
  function UpdateFunction(name: string, sourceCode: Option<string> := None, verifyJwt: Option<bool> := None,
                          importMap: map<string, string> := map[]): (r: Json)
    ensures r.JObj? && r.fields.Keys == {"name", "status"}
    ensures Reported(r) == Some((name, MOCK_UPDATED))
  {
    MockFunctionRoundTrip(name, MOCK_UPDATED);
    MockFunction(name, MOCK_UPDATED)
  }

  /** `delete_function`. */
  function DeleteFunction(name: string): (r: Json)
    ensures r.JObj? && r.fields.Keys == {"name", "status"}
    ensures Reported(r) == Some((name, MOCK_DELETED))
  {
    MockFunctionRoundTrip(name, MOCK_DELETED);
    MockFunction(name, MOCK_DELETED)
  }

  /** The placeholders answer the same for every source, JWT setting and import map, and the
      four management calls tell their answers apart only by status. */
  lemma PlaceholdersIgnoreTheirArguments(name: string, s1: string, s2: string, v1: bool, v2: bool,
                                         m1: map<string, string>, m2: map<string, string>)
    ensures CreateFunction(name, s1, v1, m1) == CreateFunction(name, s2, v2, m2)
    ensures UpdateFunction(name, Some(s1), Some(v1), m1) == UpdateFunction(name)
    ensures CreateFunction(name, s1) != GetFunction(name) && GetFunction(name) != UpdateFunction(name)
    ensures UpdateFunction(name) != DeleteFunction(name) && DeleteFunction(name) != CreateFunction(name, s1)
  {
    assert MOCK_CREATED[5] != MOCK_ACTIVE[5];
    assert MOCK_ACTIVE[5] != MOCK_UPDATED[5];
    assert MOCK_UPDATED[5] != MOCK_DELETED[5];
    assert MOCK_DELETED[5] != MOCK_CREATED[5];
  }
}
