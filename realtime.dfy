/** The REST side of the realtime service: subscription, broadcast and channel requests under
    `/realtime/v1`, made with the service-role key by default. `unsubscribe_all` never raises
    and reports the outcome in a response dict; `get_channels` hides some failures behind an
    empty channel list. Both look at `str(e)` of an error, which is the parameter `describe`. */
module Realtime {
  import opened Wrappers
  import opened Json
  import opened Service
  import Text

  /** `subscribe_to_channel`: a private-channel subscription to one event, `*` by default. */
  function SubscribeToChannel(channel: string, event: string := "*", token: Option<string> := None,
                              isAdmin: bool := true): (req: Request)
    ensures req.verb == "POST" && req.endpoint == "/realtime/v1/subscribe"
    ensures req.token == token && req.isAdmin == isAdmin && Plain(req)
    ensures req.body.Some? && req.body.value.JObj? && req.body.value.fields.Keys == {"channel", "event", "config"}
    ensures req.body.value.fields["channel"] == JStr(channel) && req.body.value.fields["event"] == JStr(event)
    ensures req.body.value.fields["config"] == JObj(map["private" := JBool(true)])
  {
    Request("POST", "/realtime/v1/subscribe", token := token, isAdmin := isAdmin,
            body := Some(JObj(map["channel" := JStr(channel), "event" := JStr(event),
                                  "config" := JObj(map["private" := JBool(true)])])))
  }

  /** `unsubscribe_from_channel`. */
  function UnsubscribeFromChannel(subscriptionId: string, token: Option<string> := None, isAdmin: bool := true): (req: Request)
    ensures req.verb == "POST" && req.endpoint == "/realtime/v1/unsubscribe"
    ensures req.token == token && req.isAdmin == isAdmin && Plain(req)
    ensures req.body == Some(JObj(map["subscription_id" := JStr(subscriptionId)]))
  {
    Request("POST", "/realtime/v1/unsubscribe", token := token, isAdmin := isAdmin,
            body := Some(JObj(map["subscription_id" := JStr(subscriptionId)])))
  }

  /** `broadcast_message`: one message on a channel, under the event `broadcast` by default. */
  function BroadcastMessage(channel: string, payload: Json, event: string := "broadcast",
                            token: Option<string> := None, isAdmin: bool := true): (req: Request)
    ensures req.verb == "POST" && req.endpoint == "/realtime/v1/broadcast"
    ensures req.token == token && req.isAdmin == isAdmin && Plain(req)
    ensures req.body.Some? && req.body.value.JObj? && req.body.value.fields.Keys == {"channel", "event", "payload"}
    ensures req.body.value.fields["channel"] == JStr(channel)
    ensures req.body.value.fields["event"] == JStr(event) && req.body.value.fields["payload"] == payload
  {
    Request("POST", "/realtime/v1/broadcast", token := token, isAdmin := isAdmin,
            body := Some(JObj(map["channel" := JStr(channel), "event" := JStr(event), "payload" := payload])))
  }

  // ---------------------------------------------------------- unsubscribe_all

  const WARNING_MESSAGE := "Server-side channel management is not fully supported by Supabase Realtime API."
  const SUCCESS_MESSAGE := "Successfully unsubscribed from all channels using server API (unusual)."
  const RECOMMENDATION := "For client applications, use: await client.realtime.remove_all_channels() instead of this server-side method."
  const RLS_INFO := "Ensure your channel naming follows the required format for RLS: 'private-[schema]-[table]-[*|id]' and that proper RLS policies are in place."

  /** The request `unsubscribe_all` tries. */
  function UnsubscribeAllRequest(token: Option<string>, isAdmin: bool): (req: Request)
    ensures req.verb == "POST" && req.endpoint == "/realtime/v1/unsubscribe_all"
    ensures req.token == token && req.isAdmin == isAdmin && req.body == Some(EmptyObject) && Plain(req)
  {
    Request("POST", "/realtime/v1/unsubscribe_all", token := token, isAdmin := isAdmin, body := Some(EmptyObject))
  }

  /** `unsubscribe_all`: a response that always carries the advice, and either the server's
      answer with status `success`, or the error described with status `warning`. It has no
      error case: whatever the server does, a response is returned. */
  method UnsubscribeAll(cfg: Config, net: Wire -> Outcome, describe: Error -> string,
                        token: Option<string> := None, isAdmin: bool := true) returns (response: map<string, Json>)
    ensures {"status", "message", "recommendation", "rls_info"} <= response.Keys
    ensures response["recommendation"] == JStr(RECOMMENDATION) && response["rls_info"] == JStr(RLS_INFO)
    ensures var result := Perform(cfg, net, UnsubscribeAllRequest(token, isAdmin));
      && (result.Ok? ==>
            && response.Keys == {"status", "message", "recommendation", "rls_info", "api_response"}
            && response["status"] == JStr("success")
            && response["message"] == JStr(SUCCESS_MESSAGE)
            && response["api_response"] == result.value)
      && (result.Err? ==>
            && response.Keys == {"status", "message", "recommendation", "rls_info", "api_error"}
            && response["status"] == JStr("warning")
            && response["message"] == JStr(WARNING_MESSAGE)
            && response["api_error"] == JObj(map["status" := JStr("error"), "message" := JStr(describe(result.error))]))
  {
    response := map["status" := JStr("warning"), "message" := JStr(WARNING_MESSAGE)];
    response := response["recommendation" := JStr(RECOMMENDATION)];
    response := response["rls_info" := JStr(RLS_INFO)];
    var result, sent := MakeRequest(cfg, net, UnsubscribeAllRequest(token, isAdmin));
    if result.Ok? {
      response := response["api_response" := result.value];
      response := response["status" := JStr("success")];
      response := response["message" := JStr(SUCCESS_MESSAGE)];
    } else {
      var errorInfo := map["status" := JStr("error"), "message" := JStr(describe(result.error))];
      response := response["api_error" := JObj(errorInfo)];
    }
  }

  // ------------------------------------------------------------- get_channels

  const FALLBACK_ERROR := "API endpoint unavailable - use client-side methods"

  /** The channel list returned in place of a permission failure. */
  const NoChannels: Json := JObj(map["channels" := JArr([]), "error" := JStr(FALLBACK_ERROR)])

  /** The request `get_channels` makes: always with the service-role key. */
  function ChannelsRequest(token: Option<string>): (req: Request)
    ensures req.verb == "GET" && req.endpoint == "/realtime/v1/channels" && req.isAdmin && req.token == token
    ensures req.body.None? && Plain(req)
  {
    Request("GET", "/realtime/v1/channels", token := token, isAdmin := true)
  }

  /** An error message that reads as a permission failure, ignoring case. */
  predicate LooksLikePermissionFailure(message: string) {
    var lowered := Text.Lower(message);
    Text.Contains(lowered, "403") || Text.Contains(lowered, "forbidden") || Text.Contains(lowered, "unauthorized")
  }

  /** `get_channels`: the server's answer; on failure the empty channel list exactly when the
      error reads as a permission failure, else the error itself. */
  function GetChannels(cfg: Config, net: Wire -> Outcome, describe: Error -> string, token: Option<string> := None): (r: Result<Json, Error>)
    ensures var result := Perform(cfg, net, ChannelsRequest(token));
      && (result.Ok? ==> r == result)
      && (result.Err? && LooksLikePermissionFailure(describe(result.error)) ==> r == Ok(NoChannels))
      && (result.Err? && !LooksLikePermissionFailure(describe(result.error)) ==> r == result)
  {
    var result := Perform(cfg, net, ChannelsRequest(token));
    if result.Err? && LooksLikePermissionFailure(describe(result.error)) then Ok(NoChannels) else result
  }

  /** `str(e)` as Python renders the errors whose text is fixed. */
  predicate DescribesFixedMessages(describe: Error -> string) {
    && describe(AuthError(MissingServiceRoleKey)) == SERVICE_ROLE_REQUIRED
    && describe(SupabaseError(CONNECTION_MESSAGE)) == CONNECTION_MESSAGE
  }

  /** The missing-key message has no '4', no 'b' and no 'z' in either case. */
  lemma ServiceRoleRequiredLacks()
    ensures forall c | c in "4bBzZ" :: c !in SERVICE_ROLE_REQUIRED
  {
    var s1, s2 := "Service role key is required", " for admin operations";
    assert forall i | 0 <= i < |s1| :: s1[i] !in "4bBzZ";
    assert forall i | 0 <= i < |s2| :: s2[i] !in "4bBzZ";
    assert SERVICE_ROLE_REQUIRED == s1 + s2;
  }

  /** The connection message has no '4', no 'f' and no 'z' in either case. */
  lemma ConnectionMessageLacks()
    ensures forall c | c in "4fFzZ" :: c !in CONNECTION_MESSAGE
  {
    var c1, c2, c3, c4 := "Connection error: Unable ", "to connect to Supabase API. ", "Check your network ", "connection and Supabase URL.";
    assert forall i | 0 <= i < |c1| :: c1[i] !in "4fFzZ";
    assert forall i | 0 <= i < |c2| :: c2[i] !in "4fFzZ";
    assert forall i | 0 <= i < |c3| :: c3[i] !in "4fFzZ";
    assert forall i | 0 <= i < |c4| :: c4[i] !in "4fFzZ";
    assert CONNECTION_MESSAGE == c1 + c2 + c3 + c4;
  }

  /** Neither a missing service-role key nor an unreachable server reads as a permission
      failure: `get_channels` raises them instead of returning the empty list. */
  lemma GetChannelsRaisesMissingKeyAndConnectionErrors(cfg: Config, net: Wire -> Outcome, describe: Error -> string, token: Option<string>)
    requires DescribesFixedMessages(describe)
    requires cfg.serviceRoleKey == "" || net(Prepare(cfg, ChannelsRequest(token)).value).ConnectionFailure?
    ensures GetChannels(cfg, net, describe, token) == Perform(cfg, net, ChannelsRequest(token))
    ensures GetChannels(cfg, net, describe, token).Err?
  {
    if cfg.serviceRoleKey == "" {
      ServiceRoleRequiredLacks();
      var lowered := Text.Lower(SERVICE_ROLE_REQUIRED);
      Text.AbsentAfterLower(SERVICE_ROLE_REQUIRED, '4');
      Text.AbsentAfterLower(SERVICE_ROLE_REQUIRED, 'b');
      Text.AbsentAfterLower(SERVICE_ROLE_REQUIRED, 'z');
      Text.MissingCharRulesOutSubstring(lowered, "403", '4');
      Text.MissingCharRulesOutSubstring(lowered, "forbidden", 'b');
      Text.MissingCharRulesOutSubstring(lowered, "unauthorized", 'z');
    } else {
      ConnectionMessageLacks();
      var lowered := Text.Lower(CONNECTION_MESSAGE);
      Text.AbsentAfterLower(CONNECTION_MESSAGE, '4');
      Text.AbsentAfterLower(CONNECTION_MESSAGE, 'f');
      Text.AbsentAfterLower(CONNECTION_MESSAGE, 'z');
      Text.MissingCharRulesOutSubstring(lowered, "403", '4');
      Text.MissingCharRulesOutSubstring(lowered, "forbidden", 'f');
      Text.MissingCharRulesOutSubstring(lowered, "unauthorized", 'z');
    }
  }
}
