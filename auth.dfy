/** The auth service: GoTrue requests under `/auth/v1`. Each operation builds the request
    descriptor it hands to the shared helper; the user-management endpoints under
    `/auth/v1/admin` are always requested with the service-role key. */
module Auth {
  import opened Wrappers
  import opened Json
  import opened Service
  import Text

  const ADMIN_USERS := "/auth/v1/admin/users"
  const TOKEN_ENDPOINT := "/auth/v1/token"

  // ------------------------------------------------------------ user creation

  /** The body of a user creation: email and password, and the metadata when it is truthy. */
  function UserPayload(email: string, password: string, metadata: map<string, Json>): (fields: map<string, Json>)
    ensures fields.Keys == {"email", "password"} + (if metadata != map[] then {"user_metadata"} else {})
    ensures fields["email"] == JStr(email) && fields["password"] == JStr(password)
    ensures metadata != map[] ==> fields["user_metadata"] == JObj(metadata)
  {
    var fields := map["email" := JStr(email), "password" := JStr(password)];
    if metadata != map[] then fields["user_metadata" := JObj(metadata)] else fields
  }

  /** `create_user`: an admin POST of the user payload. */
  method CreateUser(email: string, password: string, metadata: map<string, Json> := map[]) returns (req: Request)
    ensures req.verb == "POST" && req.endpoint == ADMIN_USERS && req.isAdmin
    ensures req.token.None? && Plain(req)
    ensures req.body == Some(JObj(UserPayload(email, password, metadata)))
  {
    var data := map["email" := JStr(email), "password" := JStr(password)];
    if metadata != map[] {
      data := data["user_metadata" := JObj(metadata)];
    }
    req := Request("POST", ADMIN_USERS, isAdmin := true, body := Some(JObj(data)));
  }

  /** `admin_create_user`: the same admin POST, whose body always says whether the email is
      confirmed. */
  method AdminCreateUser(email: string, password: string, metadata: map<string, Json> := map[],
                         emailConfirm: bool := false) returns (req: Request)
    ensures req.verb == "POST" && req.endpoint == ADMIN_USERS && req.isAdmin
    ensures req.token.None? && Plain(req)
    ensures req.body == Some(JObj(UserPayload(email, password, metadata)["email_confirm" := JBool(emailConfirm)]))
  {
    var data := map["email" := JStr(email), "password" := JStr(password), "email_confirm" := JBool(emailConfirm)];
    if metadata != map[] {
      data := data["user_metadata" := JObj(metadata)];
    }
    ghost var expected := UserPayload(email, password, metadata)["email_confirm" := JBool(emailConfirm)];
    assert data.Keys == expected.Keys;
    assert forall k :: k in data ==> data[k] == expected[k];
    assert data == expected;
    req := Request("POST", ADMIN_USERS, isAdmin := true, body := Some(JObj(data)));
  }

  /** `create_anonymous_user`: a sign-up with an empty body. */
  function CreateAnonymousUser(): (req: Request)
    ensures req.verb == "POST" && req.endpoint == "/auth/v1/signup"
    ensures req.body == Some(EmptyObject) && !req.isAdmin && req.token.None? && Plain(req)
  {
    Request("POST", "/auth/v1/signup", body := Some(EmptyObject))
  }

  // ------------------------------------------------------------- token grants

  function GrantEndpoint(grantType: string): string {
    TOKEN_ENDPOINT + "?grant_type=" + grantType
  }

  /** The grant type a token endpoint asks for, read back. */
  function GrantTypeOf(endpoint: string): Option<string> {
    var prefix := TOKEN_ENDPOINT + "?grant_type=";
    if |prefix| <= |endpoint| && endpoint[..|prefix|] == prefix then Some(endpoint[|prefix|..]) else None
  }

  lemma GrantEndpointRoundTrip(grantType: string)
    ensures GrantTypeOf(GrantEndpoint(grantType)) == Some(grantType)
  {
    var prefix := TOKEN_ENDPOINT + "?grant_type=";
    assert GrantEndpoint(grantType) == prefix + grantType;
    assert (prefix + grantType)[|prefix|..] == grantType;
  }

  /** `sign_in_with_email`: the password grant. */
  function SignInWithEmail(email: string, password: string, isAdmin: bool := false): (req: Request)
    ensures req.verb == "POST" && GrantTypeOf(req.endpoint) == Some("password")
    ensures req.body == Some(JObj(map["email" := JStr(email), "password" := JStr(password)]))
    ensures req.isAdmin == isAdmin && req.token.None? && Plain(req)
  {
    GrantEndpointRoundTrip("password");
    Request("POST", GrantEndpoint("password"), isAdmin := isAdmin,
            body := Some(JObj(map["email" := JStr(email), "password" := JStr(password)])))
  }

  /** `sign_in_with_id_token`: the ID-token grant. */
  function SignInWithIdToken(provider: string, idToken: string): (req: Request)
    ensures req.verb == "POST" && GrantTypeOf(req.endpoint) == Some("id_token")
    ensures req.body == Some(JObj(map["provider" := JStr(provider), "id_token" := JStr(idToken)]))
    ensures !req.isAdmin && req.token.None? && Plain(req)
  {
    GrantEndpointRoundTrip("id_token");
    Request("POST", GrantEndpoint("id_token"), body := Some(JObj(map["provider" := JStr(provider), "id_token" := JStr(idToken)])))
  }

  /** `refresh_session`: the refresh-token grant. */
  function RefreshSession(refreshToken: string): (req: Request)
    ensures req.verb == "POST" && GrantTypeOf(req.endpoint) == Some("refresh_token")
    ensures req.body == Some(JObj(map["refresh_token" := JStr(refreshToken)]))
    ensures !req.isAdmin && req.token.None? && Plain(req)
  {
    GrantEndpointRoundTrip("refresh_token");
    Request("POST", GrantEndpoint("refresh_token"), body := Some(JObj(map["refresh_token" := JStr(refreshToken)])))
  }

  // -------------------------------------------------------- one-time passwords

  /** `sign_in_with_otp`. */
  function SignInWithOtp(email: string): (req: Request)
    ensures req.verb == "POST" && req.endpoint == "/auth/v1/otp"
    ensures req.body == Some(JObj(map["email" := JStr(email)])) && !req.isAdmin
    ensures req.token.None? && Plain(req)
  {
    Request("POST", "/auth/v1/otp", body := Some(JObj(map["email" := JStr(email)])))
  }

  /** `verify_otp`: the type is `email` unless the caller names another. */
  function VerifyOtp(email: string, token: string, otpType: string := "email"): (req: Request)
    ensures req.verb == "POST" && req.endpoint == "/auth/v1/verify" && !req.isAdmin && req.token.None?
    ensures req.body == Some(JObj(map["email" := JStr(email), "token" := JStr(token), "type" := JStr(otpType)]))
    ensures Plain(req)
  {
    Request("POST", "/auth/v1/verify", body := Some(JObj(map["email" := JStr(email), "token" := JStr(token), "type" := JStr(otpType)])))
  }

  // ------------------------------------------------------ redirects, sessions

  /** `sign_in_with_oauth`. */
  function SignInWithOauth(provider: string, redirectUrl: string): (req: Request)
    ensures req.verb == "POST" && req.endpoint == "/auth/v1/authorize?provider=" + provider
    ensures req.body == Some(JObj(map["redirect_to" := JStr(redirectUrl)])) && !req.isAdmin
    ensures req.token.None? && Plain(req)
  {
    Request("POST", "/auth/v1/authorize?provider=" + provider, body := Some(JObj(map["redirect_to" := JStr(redirectUrl)])))
  }

  /** `sign_in_with_sso`. */
  function SignInWithSso(domain: string, redirectUrl: string): (req: Request)
    ensures req.verb == "POST" && req.endpoint == "/auth/v1/sso"
    ensures req.body == Some(JObj(map["domain" := JStr(domain), "redirect_to" := JStr(redirectUrl)])) && !req.isAdmin
    ensures req.token.None? && Plain(req)
  {
    Request("POST", "/auth/v1/sso", body := Some(JObj(map["domain" := JStr(domain), "redirect_to" := JStr(redirectUrl)])))
  }

  /** `sign_out`. */
  function SignOut(token: string): (req: Request)
    ensures req.verb == "POST" && req.endpoint == "/auth/v1/logout"
    ensures req.token == Some(token) && !req.isAdmin && req.body.None? && Plain(req)
  {
    Request("POST", "/auth/v1/logout", token := Some(token))
  }

  /** `reset_password`: the redirect is sent only when it is truthy; the admin flag is the
      caller's. */
  method ResetPassword(email: string, redirectUrl: Option<string> := None, isAdmin: bool := false) returns (req: Request)
    ensures req.verb == "POST" && req.endpoint == "/auth/v1/recover" && req.isAdmin == isAdmin
    ensures req.token.None? && Plain(req)
    ensures req.body.Some? && req.body.value.JObj?
    ensures req.body.value.fields.Keys == {"email"} + (if Given(redirectUrl) then {"redirect_to"} else {})
    ensures req.body.value.fields["email"] == JStr(email)
    ensures Given(redirectUrl) ==> req.body.value.fields["redirect_to"] == JStr(redirectUrl.value)
  {
    var data := map["email" := JStr(email)];
    if Given(redirectUrl) {
      data := data["redirect_to" := JStr(redirectUrl.value)];
    }
    req := Request("POST", "/auth/v1/recover", isAdmin := isAdmin, body := Some(JObj(data)));
  }

  /** `get_session`. */
  function GetSession(token: string): (req: Request)
    ensures req.verb == "GET" && req.endpoint == "/auth/v1/user" && req.token == Some(token) && !req.isAdmin
    ensures req.body.None? && Plain(req)
  {
    Request("GET", "/auth/v1/user", token := Some(token))
  }

  /** `get_user_by_token`: the same request as `get_session`. */
  function GetUserByToken(token: string): (req: Request)
    ensures req == GetSession(token)
  {
    Request("GET", "/auth/v1/user", token := Some(token))
  }

  /** `set_session_data`: the caller's data nested under `data`, with the caller's token. */
  function SetSessionData(token: string, data: Json): (req: Request)
    ensures req.verb == "PUT" && req.endpoint == "/auth/v1/user" && req.token == Some(token) && !req.isAdmin
    ensures req.body.Some? && req.body.value.JObj? && req.body.value.fields.Keys == {"data"}
    ensures req.body.value.fields["data"] == data && Plain(req)
  {
    Request("PUT", "/auth/v1/user", token := Some(token), body := Some(JObj(map["data" := data])))
  }

  // ----------------------------------------------------- admin user management

  /** `get_user`: always admin. */
  function GetUser(userId: string): (req: Request)
    ensures req.verb == "GET" && req.endpoint == ADMIN_USERS + "/" + userId && req.isAdmin && req.body.None?
    ensures req.token.None? && Plain(req)
  {
    Request("GET", ADMIN_USERS + "/" + userId, isAdmin := true)
  }

  /** `update_user`: always admin. */
  function UpdateUser(userId: string, userData: Json): (req: Request)
    ensures req.verb == "PUT" && req.endpoint == ADMIN_USERS + "/" + userId && req.isAdmin
    ensures req.body == Some(userData) && req.token.None? && Plain(req)
  {
    Request("PUT", ADMIN_USERS + "/" + userId, isAdmin := true, body := Some(userData))
  }

  /** The query string of a user listing after `?page=`. */
  function PageQuery(page: int, perPage: int): string {
    Text.IntToString(page) + "&per_page=" + Text.IntToString(perPage)
  }

  function ListUsersEndpoint(page: int, perPage: int): string {
    ADMIN_USERS + "?page=" + PageQuery(page, perPage)
  }

  /** `list_users`: always admin; the page and its size (1 and 50 by default) are in the URL. */
  function ListUsers(page: int := 1, perPage: int := 50): (req: Request)
    ensures req.verb == "GET" && req.isAdmin && req.body.None?
    ensures req.endpoint == ListUsersEndpoint(page, perPage) && req.token.None? && Plain(req)
  {
    Request("GET", ListUsersEndpoint(page, perPage), isAdmin := true)
  }

  /** Different pages, or pages of different sizes, are different URLs. */
  lemma ListUsersEndpointInjective(page1: int, perPage1: int, page2: int, perPage2: int)
    requires ListUsersEndpoint(page1, perPage1) == ListUsersEndpoint(page2, perPage2)
    ensures page1 == page2 && perPage1 == perPage2
  {
    var prefix := ADMIN_USERS + "?page=";
    var query1, query2 := PageQuery(page1, perPage1), PageQuery(page2, perPage2);
    assert query1 == (prefix + query1)[|prefix|..];
    assert query2 == (prefix + query2)[|prefix|..];
    PageQueryInjective(page1, perPage1, page2, perPage2);
  }

  /** The query part of the listing URL determines the page and its size. */
  lemma PageQueryInjective(page1: int, perPage1: int, page2: int, perPage2: int)
    requires PageQuery(page1, perPage1) == PageQuery(page2, perPage2)
    ensures page1 == page2 && perPage1 == perPage2
  {
    var p1, q1 := Text.IntToString(page1), Text.IntToString(perPage1);
    var p2, q2 := Text.IntToString(page2), Text.IntToString(perPage2);
    var rest1 := "per_page=" + q1;
    var rest2 := "per_page=" + q2;
    assert p1 + "&per_page=" + q1 == p1 + ['&'] + rest1;
    assert p2 + "&per_page=" + q2 == p2 + ['&'] + rest2;
    Text.SplitAtSeparator(p1, rest1, p2, rest2, '&');
    assert q1 == rest1[9..] && q2 == rest2[9..];
    Text.IntToStringInjective(page1, page2);
    Text.IntToStringInjective(perPage1, perPage2);
  }

  /** `get_user_identities`: the `identities` of the user record, `[]` when it has none;
      calling `.get` on a record that is not a dict raises `AttributeError`. */
  function GetUserIdentities(cfg: Config, net: Wire -> Outcome, userId: string): (r: Result<Json, Error>)
    ensures Perform(cfg, net, GetUser(userId)).Err? ==> r == Perform(cfg, net, GetUser(userId))
    ensures r.Ok? <==> Perform(cfg, net, GetUser(userId)).Ok? && Perform(cfg, net, GetUser(userId)).value.JObj?
    ensures r.Ok? ==> var fields := Perform(cfg, net, GetUser(userId)).value.fields;
      r.value == if "identities" in fields then fields["identities"] else JArr([])
  {
    match Perform(cfg, net, GetUser(userId))
    case Err(e) => Err(e)
    case Ok(user) =>
      if user.JObj? then Ok(if "identities" in user.fields then user.fields["identities"] else JArr([]))
      else Err(AttributeError("'" + TypeName(user) + "' object has no attribute 'get'"))
  }

  /** Without a service-role key every admin-only operation fails before anything is sent. */
  lemma AdminOnlyNeedsServiceRoleKey(cfg: Config, net: Wire -> Outcome, userId: string, data: Json, page: int, perPage: int)
    requires cfg.serviceRoleKey == ""
    ensures Perform(cfg, net, GetUser(userId)) == Err(AuthError(MissingServiceRoleKey))
    ensures Perform(cfg, net, UpdateUser(userId, data)) == Err(AuthError(MissingServiceRoleKey))
    ensures Perform(cfg, net, ListUsers(page, perPage)) == Err(AuthError(MissingServiceRoleKey))
    ensures GetUserIdentities(cfg, net, userId) == Err(AuthError(MissingServiceRoleKey))
  {
  }

  // -------------------------------------------------------- linked identities

  /** `link_identity`. */
  function LinkIdentity(token: string, provider: string, redirectUrl: string): (req: Request)
    ensures req.verb == "POST" && req.endpoint == "/auth/v1/user/identities/authorize?provider=" + provider
    ensures req.token == Some(token) && !req.isAdmin && Plain(req)
    ensures req.body == Some(JObj(map["redirect_to" := JStr(redirectUrl)]))
  {
    Request("POST", "/auth/v1/user/identities/authorize?provider=" + provider, token := Some(token),
            body := Some(JObj(map["redirect_to" := JStr(redirectUrl)])))
  }

  /** `unlink_identity`. */
  function UnlinkIdentity(token: string, identityId: string): (req: Request)
    ensures req.verb == "DELETE" && req.endpoint == "/auth/v1/user/identities/" + identityId
    ensures req.token == Some(token) && !req.isAdmin && req.body.None? && Plain(req)
  {
    Request("DELETE", "/auth/v1/user/identities/" + identityId, token := Some(token))
  }

  // ---------------------------------------------------------------------- MFA

  /** `enroll_mfa_factor`: a TOTP factor unless the caller names another type. */
  function EnrollMfaFactor(token: string, factorType: string := "totp"): (req: Request)
    ensures req.verb == "POST" && req.endpoint == "/auth/v1/factors" && req.token == Some(token)
    ensures req.body == Some(JObj(map["factor_type" := JStr(factorType)]))
    ensures !req.isAdmin && Plain(req)
  {
    Request("POST", "/auth/v1/factors", token := Some(token), body := Some(JObj(map["factor_type" := JStr(factorType)])))
  }

  /** `create_mfa_challenge`. */
  function CreateMfaChallenge(token: string, factorId: string): (req: Request)
    ensures req.verb == "POST" && req.endpoint == "/auth/v1/factors/challenges" && req.token == Some(token)
    ensures req.body == Some(JObj(map["factor_id" := JStr(factorId)]))
    ensures !req.isAdmin && Plain(req)
  {
    Request("POST", "/auth/v1/factors/challenges", token := Some(token), body := Some(JObj(map["factor_id" := JStr(factorId)])))
  }

  /** `verify_mfa_challenge`. */
  function VerifyMfaChallenge(token: string, factorId: string, challengeId: string, code: string): (req: Request)
    ensures req.verb == "POST" && req.endpoint == "/auth/v1/factors/verify" && req.token == Some(token)
    ensures req.body == Some(JObj(map["factor_id" := JStr(factorId), "challenge_id" := JStr(challengeId), "code" := JStr(code)]))
    ensures !req.isAdmin && Plain(req)
  {
    Request("POST", "/auth/v1/factors/verify", token := Some(token),
            body := Some(JObj(map["factor_id" := JStr(factorId), "challenge_id" := JStr(challengeId), "code" := JStr(code)])))
  }

  /** `unenroll_mfa_factor`. */
  function UnenrollMfaFactor(token: string, factorId: string): (req: Request)
    ensures req.verb == "DELETE" && req.endpoint == "/auth/v1/factors/" + factorId && req.token == Some(token)
    ensures req.body.None? && !req.isAdmin && Plain(req)
  {
    Request("DELETE", "/auth/v1/factors/" + factorId, token := Some(token))
  }
}
