/** The database service: PostgREST requests against `/rest/v1/{table}`. Every operation builds
    the request descriptor it hands to the shared helper; what the caller gets back is
    `Service.Perform` of that descriptor. */
module Database {
  import opened Wrappers
  import opened Json
  import opened Service

  const PREFER := "Prefer"
  const RETURN_REPRESENTATION := "return=representation"
  const MERGE_DUPLICATES := "resolution=merge-duplicates,return=representation"
  const EXEC_SQL_ENDPOINT := "/rest/v1/rpc/exec_sql"

  /** The `Prefer` header every row operation sends. */
  const RepresentationHeaders: map<string, string> := map[PREFER := RETURN_REPRESENTATION]

  function TableEndpoint(table: string): string {
    "/rest/v1/" + table
  }

  /** The PostgREST equality filter for one value: `eq.` followed by `str(value)`. */
  function EqFilter(v: Scalar): Json {
    JStr("eq." + PyStr(v))
  }

  /** What PostgREST reads back from a query parameter: the operand of an `eq.` filter. */
  function EqOperand(param: Json): Option<string> {
    if param.JStr? && |param.s| >= 3 && param.s[..3] == "eq." then Some(param.s[3..]) else None
  }

  /** The rendered filter is an equality filter on exactly the caller's value. */
  lemma EqFilterRoundTrip(v: Scalar)
    ensures EqOperand(EqFilter(v)) == Some(PyStr(v))
  {
    var s := "eq." + PyStr(v);
    assert s[..3] == "eq." && s[3..] == PyStr(v);
  }

  /** The rendered filters: every filter key mapped to its `eq.` rendering. */
  function EqFilters(filters: map<string, Scalar>): (params: map<string, Json>)
    ensures params.Keys == filters.Keys
    ensures forall k :: k in filters ==> EqOperand(params[k]) == Some(PyStr(filters[k]))
  {
    map k | k in filters :: EqFilter(filters[k])
  }

  /** The filter loop, `for key, value in filters.items(): params[key] = f"eq.{value}"`. */
  method AddEqFilters(params0: map<string, Json>, filters: map<string, Scalar>) returns (params: map<string, Json>)
    ensures params == params0 + EqFilters(filters)
  {
    params := params0;
    var pending := filters.Keys;
    while pending != {}
      invariant pending <= filters.Keys
      invariant params.Keys == params0.Keys + (filters.Keys - pending)
      invariant forall k :: k in filters && k !in pending ==> params[k] == EqFilter(filters[k])
      invariant forall k :: k in params0 && (k !in filters || k in pending) ==> params[k] == params0[k]
      decreases pending
    {
      var k :| k in pending;
      params := params[k := EqFilter(filters[k])];
      pending := pending - {k};
    }
    FiltersAdded(params0, filters, params);
  }

  /** A map that extends `params0` with every filter, each rendered, is `params0 + EqFilters(filters)`. */
  lemma FiltersAdded(params0: map<string, Json>, filters: map<string, Scalar>, params: map<string, Json>)
    requires params.Keys == params0.Keys + filters.Keys
    requires forall k :: k in filters ==> params[k] == EqFilter(filters[k])
    requires forall k :: k in params0 && k !in filters ==> params[k] == params0[k]
    ensures params == params0 + EqFilters(filters)
  {
    var expected := params0 + EqFilters(filters);
    assert params.Keys == expected.Keys;
    assert forall k :: k in params ==> params[k] == expected[k];
  }

  /** The query of `fetch_data`: `select`, then the filters, then `order` when given and
      `limit`/`offset` when not `None`, each later key overwriting an earlier one. */
  function FetchParams(select: string, filters: map<string, Scalar>, order: Option<string>,
                       limit: Option<int>, offset: Option<int>): map<string, Json>
  {
    var selected := map["select" := JStr(select)] + EqFilters(filters);
    var ordered := if Given(order) then selected["order" := JStr(order.value)] else selected;
    var limited := if limit.Some? then ordered["limit" := JInt(limit.value)] else ordered;
    if offset.Some? then limited["offset" := JInt(offset.value)] else limited
  }

  /** The query names `select`, every filter key, and each paging option that was given. */
  lemma FetchParamsKeys(select: string, filters: map<string, Scalar>, order: Option<string>,
                        limit: Option<int>, offset: Option<int>)
    ensures FetchParams(select, filters, order, limit, offset).Keys == {"select"} + filters.Keys
      + (if Given(order) then {"order"} else {})
      + (if limit.Some? then {"limit"} else {})
      + (if offset.Some? then {"offset"} else {})
  {
  }

  /** The paging options win over filters of the same name, the filters win over `select`,
      and every other filter is an `eq.` filter on its value. */
  lemma FetchParamsValues(select: string, filters: map<string, Scalar>, order: Option<string>,
                          limit: Option<int>, offset: Option<int>)
    ensures var params := FetchParams(select, filters, order, limit, offset);
      && ("select" !in filters ==> params["select"] == JStr(select))
      && (forall k :: k in filters && k != "order" && k != "limit" && k != "offset" ==> params[k] == EqFilter(filters[k]))
      && (Given(order) ==> params["order"] == JStr(order.value))
      && (!Given(order) && "order" in filters ==> params["order"] == EqFilter(filters["order"]))
      && (limit.Some? ==> params["limit"] == JInt(limit.value))
      && (limit.None? && "limit" in filters ==> params["limit"] == EqFilter(filters["limit"]))
      && (offset.Some? ==> params["offset"] == JInt(offset.value))
      && (offset.None? && "offset" in filters ==> params["offset"] == EqFilter(filters["offset"]))
  {
  }

  /** `fetch_data`: a GET of the table with the query above. */
  method FetchData(table: string, token: Option<string> := None, select: string := "*",
                   filters: map<string, Scalar> := map[], order: Option<string> := None,
                   limit: Option<int> := None, offset: Option<int> := None) returns (req: Request)
    ensures req.verb == "GET" && req.endpoint == TableEndpoint(table)
    ensures req.token == token && !req.isAdmin && req.body.None?
    ensures req.headers == RepresentationHeaders && req.timeout == DEFAULT_TIMEOUT
    ensures req.params == FetchParams(select, filters, order, limit, offset)
  {
    var params := map["select" := JStr(select)];
    if filters != map[] {
      params := AddEqFilters(params, filters);
    } else {
      assert EqFilters(filters) == map[];
    }
    assert params == map["select" := JStr(select)] + EqFilters(filters);
    if Given(order) {
      params := params["order" := JStr(order.value)];
    }
    if limit.Some? {
      params := params["limit" := JInt(limit.value)];
    }
    if offset.Some? {
      params := params["offset" := JInt(offset.value)];
    }
    req := Request("GET", TableEndpoint(table), token := token, params := params, headers := RepresentationHeaders);
  }

  /** `insert_data`: a POST of the rows, asking for the representation back, and for merging
      duplicates as well exactly when `upsert` is set. */
  method InsertData(table: string, data: Json, token: Option<string> := None, upsert: bool := false) returns (req: Request)
    ensures req.verb == "POST" && req.endpoint == TableEndpoint(table)
    ensures req.token == token && !req.isAdmin && req.body == Some(data) && req.params == map[]
    ensures req.timeout == DEFAULT_TIMEOUT
    ensures req.headers.Keys == {PREFER}
    ensures req.headers[PREFER] == MERGE_DUPLICATES <==> upsert
    ensures !upsert ==> req.headers == RepresentationHeaders
  {
    var headers := map[PREFER := RETURN_REPRESENTATION];
    if upsert {
      headers := headers[PREFER := MERGE_DUPLICATES];
    }
    req := Request("POST", TableEndpoint(table), token := token, body := Some(data), headers := headers);
  }

  /** `upsert_data`: an insert with `upsert` set. */
  method UpsertData(table: string, data: Json, token: Option<string> := None) returns (req: Request)
    ensures req.verb == "POST" && req.endpoint == TableEndpoint(table)
    ensures req.token == token && !req.isAdmin && req.body == Some(data) && req.params == map[]
    ensures req.headers == map[PREFER := MERGE_DUPLICATES] && req.timeout == DEFAULT_TIMEOUT
  {
    req := InsertData(table, data, token, upsert := true);
  }

  /** `update_data`: a PATCH of `data` on the rows the filters select; the query is exactly the
      rendered filters (no `select`). */
  method UpdateData(table: string, data: Json, filters: map<string, Scalar>, token: Option<string> := None) returns (req: Request)
    ensures req.verb == "PATCH" && req.endpoint == TableEndpoint(table)
    ensures req.token == token && !req.isAdmin && req.body == Some(data)
    ensures req.headers == RepresentationHeaders && req.timeout == DEFAULT_TIMEOUT
    ensures req.params == EqFilters(filters)
  {
    var params := map[];
    if filters != map[] {
      params := AddEqFilters(params, filters);
    }
    req := Request("PATCH", TableEndpoint(table), token := token, body := Some(data), params := params, headers := RepresentationHeaders);
  }

  /** `delete_data`: a DELETE on the rows the filters select; the query is exactly the rendered
      filters, so no filter means no query at all. */
  method DeleteData(table: string, filters: map<string, Scalar>, token: Option<string> := None) returns (req: Request)
    ensures req.verb == "DELETE" && req.endpoint == TableEndpoint(table)
    ensures req.token == token && !req.isAdmin && req.body.None?
    ensures req.headers == RepresentationHeaders && req.timeout == DEFAULT_TIMEOUT
    ensures req.params == EqFilters(filters)
  {
    var params := map[];
    if filters != map[] {
      params := AddEqFilters(params, filters);
    }
    req := Request("DELETE", TableEndpoint(table), token := token, params := params, headers := RepresentationHeaders);
  }

  /** `call_function`: a POST to the function's RPC endpoint; no parameters send `{}`. */
  function CallFunction(name: string, params: Json := JNull, token: Option<string> := None): (req: Request)
    ensures req.verb == "POST" && req.endpoint == "/rest/v1/rpc/" + name
    ensures req.token == token && !req.isAdmin && Plain(req)
    ensures Truthy(params) ==> req.body == Some(params)
    ensures !Truthy(params) ==> req.body == Some(EmptyObject)
  {
    Request("POST", "/rest/v1/rpc/" + name, token := token, body := Some(OrEmpty(params)))
  }

  /** The body of an `exec_sql` call. */
  function SqlPayload(sql: string): Json {
    JObj(map["query" := JStr(sql)])
  }

  /** The statement text the SQL payload carries back. */
  function PayloadSql(payload: Json): Option<string> {
    if payload.JObj? && "query" in payload.fields && payload.fields["query"].JStr?
    then Some(payload.fields["query"].s) else None
  }

  /** The DDL `create_test_table` runs: the table with its five columns, row-level security on,
      and one policy for authenticated users. */
  function TestTableSql(table: string): (sql: string)
    ensures var head := "CREATE TABLE IF NOT EXISTS " + table + " (";
      |head| <= |sql| && sql[..|head|] == head
  {
    var head := "CREATE TABLE IF NOT EXISTS " + table + " (";
    var rest := TestTableRest(table);
    assert (head + rest)[..|head|] == head;
    head + rest
  }

  /** The five columns of the test table, closing the column list. */
  const TEST_COLUMNS := "id SERIAL PRIMARY KEY, name TEXT NOT NULL, description TEXT,"
    + " created_at TIMESTAMP WITH TIME ZONE DEFAULT NOW(), user_id TEXT);"
  /** The name of the policy on the test table, quoted. */
  const TEST_POLICY := "\"Allow all operations for authenticated users\""
  /** What the policy allows: everything, to authenticated users. */
  const TEST_POLICY_RULE := " FOR ALL TO authenticated USING (true) WITH CHECK (true);"

  /** The DDL after the opening parenthesis of the column list. */
  function TestTableRest(table: string): string {
    TEST_COLUMNS
      + " ALTER TABLE " + table + " ENABLE ROW LEVEL SECURITY;"
      + " DROP POLICY IF EXISTS " + TEST_POLICY + " ON " + table + ";"
      + " CREATE POLICY " + TEST_POLICY + " ON " + table
      + TEST_POLICY_RULE
  }

  /** `DROP TABLE IF EXISTS {table};` */
  function DropTableSql(table: string): (sql: string)
    ensures |sql| == |table| + 22
    ensures sql[..21] == "DROP TABLE IF EXISTS " && sql[21..|sql| - 1] == table && sql[|sql| - 1] == ';'
  {
    "DROP TABLE IF EXISTS " + table + ";"
  }

  /** An `exec_sql` call: a POST of `{"query": sql}`, admin unless the caller says otherwise. */
  function ExecSql(sql: string, token: Option<string>, isAdmin: bool): (req: Request)
    ensures req.verb == "POST" && req.endpoint == EXEC_SQL_ENDPOINT
    ensures req.token == token && req.isAdmin == isAdmin && Plain(req)
    ensures req.body.Some? && PayloadSql(req.body.value) == Some(sql)
    ensures req.body.value.JObj? && req.body.value.fields.Keys == {"query"}
  {
    Request("POST", EXEC_SQL_ENDPOINT, token := token, isAdmin := isAdmin, body := Some(SqlPayload(sql)))
  }

  /** `create_test_table`. */
  function CreateTestTable(table: string, token: Option<string> := None, isAdmin: bool := true): (req: Request)
    ensures req.verb == "POST" && req.endpoint == EXEC_SQL_ENDPOINT
    ensures req.token == token && req.isAdmin == isAdmin && Plain(req)
    ensures req.body.Some? && PayloadSql(req.body.value) == Some(TestTableSql(table))
    ensures req.body.value.JObj? && req.body.value.fields.Keys == {"query"}
  {
    ExecSql(TestTableSql(table), token, isAdmin)
  }

  /** `delete_table`. */
  function DeleteTable(table: string, token: Option<string> := None, isAdmin: bool := true): (req: Request)
    ensures req.verb == "POST" && req.endpoint == EXEC_SQL_ENDPOINT
    ensures req.token == token && req.isAdmin == isAdmin && Plain(req)
    ensures req.body.Some? && PayloadSql(req.body.value) == Some(DropTableSql(table))
    ensures req.body.value.JObj? && req.body.value.fields.Keys == {"query"}
  {
    ExecSql(DropTableSql(table), token, isAdmin)
  }

  /** Different tables are dropped by different statements. */
  lemma DropTableSqlInjective(t1: string, t2: string)
    requires DropTableSql(t1) == DropTableSql(t2)
    ensures t1 == t2
  {
    assert t1 == DropTableSql(t1)[21..|DropTableSql(t1)| - 1];
  }

  /** With the default admin flag and no service-role key, the table helpers fail before
      anything is sent, whatever the network would answer. */
  lemma TableHelpersNeedServiceRoleKey(cfg: Config, net: Wire -> Outcome, table: string)
    requires cfg.serviceRoleKey == ""
    ensures Perform(cfg, net, CreateTestTable(table)) == Err(AuthError(MissingServiceRoleKey))
    ensures Perform(cfg, net, DeleteTable(table)) == Err(AuthError(MissingServiceRoleKey))
  {
  }
}
