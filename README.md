# Supabase service wrappers, modelled in Dafny

This project models the Python service layer that wraps the Supabase REST APIs (Auth,
PostgREST database, Storage, Realtime and Edge Functions) for a Django back end.

- **The shared helper.** Every service call goes through one helper, `SupabaseService._make_request`. It:
  - picks the headers: the anonymous key, the user's bearer token, or the service-role key for admin calls;
  - lays the caller's headers over those defaults;
  - sends `{}` as the body when no body is given and the headers declare JSON;
  - maps the HTTP outcome to a return value or to one of the error kinds:
    - `SupabaseAuthError` for 401/403;
    - `SupabaseAPIError` with status and details for the other error statuses;
    - `SupabaseError` for connection failures, timeouts and other client failures;
    - a wrapped `Exception` for anything else.
- **Request builders.** Each service operation builds the arguments of one helper call. It is modelled as a function, or as a method where the source fills a dict step by step, that returns a request descriptor `Service.Request`. What the caller receives is `Service.Perform(cfg, net, req)`. A *plain* request (`Service.Plain`) passes no query parameters and no extra headers and keeps the helper's 30-second default timeout.
- **The network.** The network is an oracle `net: Wire -> Outcome`, from the request put on the wire to what the HTTP client reports.
- **Fallbacks.** The operations that fall back from one request to another (`list_files`, `delete_file`) also return the descriptors they tried, in order.
- **The Realtime channel registry.** `functions/realtime.py` keeps `active_channels` in a Realtime service object. It is a class whose methods update the registry in place. The SDK steps (connect, subscribe, send, unsubscribe, disconnect) are parameters that either succeed or fail with a message.
- **The process-wide client.** `init.py` keeps one lazily created client. It is a class holding the cached client. The environment variables and `create_client` are parameters.

The copies under `functions/` of the database, storage, auth and edge-function services build the same requests as the top-level files, line for line. They are modelled once, by the members below. The rows cite the top-level file; the matching `functions/` lines are:
- `functions/database.py`: 19-280;
- `functions/storage.py`: 22-699;
- `functions/auth.py`: 18-464;
- `functions/edge_functions.py`: 19-159.

Modules: `Wrappers` (Option, Result), `Text` (the Python string operations used), `Json` (JSON values and Python truthiness), `Service`, `Database`, `Storage`, `Auth`, `Realtime` (the REST realtime service), `ChannelRegistry`, `EdgeFunctions` and `ClientInit`.

## Model

| member | source | states |
|---|---|---|
| Service.NewConfig | _service.py:46-64 | construction succeeds exactly when the URL and the anonymous key are both set; the URL is checked first; a missing service-role key is accepted |
| Service.ApiErrorOf | _service.py:23-29 | a `SupabaseAPIError` keeps its status code and stores its details, or `{}` when the details are falsy |
| Service.Headers | _service.py:66-97 | fails with `SupabaseAuthError` exactly for an admin call without a service-role key; otherwise always JSON content type and an `apikey`; admin calls use the service-role key for both `apikey` and `Authorization: Bearer`; other calls use the anonymous key, plus a bearer header exactly when a non-empty token is given |
| Service.Prepare | _service.py:132-155 | the URL is base URL plus endpoint; the headers are the defaults with the caller's headers laid over them, key by key; a missing body becomes `{}` exactly when the merged headers still declare JSON; it fails exactly when the headers do |
| Service.ParseErrorResponse | _service.py:229-241 | the details are the JSON error body, or `{status, message}` with the response text when the body is not JSON |
| Service.Classify | _service.py:157-227 | success exactly for a non-error status with an empty or JSON body; 401/403 give an authentication error; other 4xx/5xx give an API error with the status and parsed details; a connection failure, a timeout, a request failure and an undecodable success body each give their `SupabaseError` message; anything else gives the "Unexpected error" wrapper |
| Service.MakeRequest | _service.py:99-227 | nothing is sent exactly for an admin call without a service-role key; what is sent is the prepared request; the result is `Perform` of the descriptor |
| Service.AdminWithoutKeyNeverReachesNetwork | _service.py:86-91 | an admin call without a service-role key fails the same way whatever the network would answer |
| Service.PremergedHeadersSurvive | _service.py:135-137 | headers that already contain every default header are sent unchanged |
| Service.CallerContentTypeKeepsBodyNone | _service.py:153-154 | a caller `Content-Type` other than JSON keeps a missing body missing |
| Service.ErrorKindOfOutcome | _service.py:182-218 | the error kind is decided by the outcome: authentication error iff 401/403; API error with that status iff another error status; `SupabaseError` for every transport failure |
| Database.EqFilterRoundTrip | database.py:41-43 | every rendered filter is an `eq.` filter whose operand is `str(value)` |
| Database.EqFilters | database.py:40-43 | the rendered filters have exactly the filter keys, each holding an `eq.` filter on its value |
| Database.AddEqFilters | database.py:40-43 | the filter loop adds the rendered filters to the query it is given, overriding keys already there |
| Database.FiltersAdded | database.py:40-43 | a query that extends the given one with every rendered filter, and keeps the other keys, is that query overridden by the filters |
| Database.FetchParamsKeys | database.py:37-53 | the `fetch_data` query names `select`, every filter, `order` when it is non-empty, and `limit`/`offset` when not `None` |
| Database.FetchParamsValues | database.py:37-53 | in the query, paging options override filters of the same name, filters override `select`, and every other filter is an `eq.` filter |
| Database.FetchData | database.py:13-61 | a GET of `/rest/v1/{table}` with `Prefer: return=representation` and the query above |
| Database.InsertData | database.py:63-92 | a POST of the rows; the only extra header is `Prefer`; it asks to merge duplicates exactly when `upsert` is set |
| Database.UpsertData | database.py:128-143 | an insert with merge-duplicates resolution: the same POST of the rows whose only header is `Prefer` asking to merge duplicates, with the default timeout |
| Database.UpdateData | database.py:94-126 | a PATCH of the data whose query is exactly the rendered filters |
| Database.DeleteData | database.py:145-174 | a DELETE whose query is exactly the rendered filters |
| Database.CallFunction | database.py:176-198 | a plain POST to `/rest/v1/rpc/{name}` of the parameters, or of `{}` when they are falsy, never as admin, forwarding the token |
| Database.DropTableSql | database.py:263 | the statement is `DROP TABLE IF EXISTS ` followed by the table name and `;` |
| Database.ExecSql | database.py:239-245 | an `exec_sql` call is a plain POST to `/rest/v1/rpc/exec_sql` whose body is `{"query": sql}` with no other key, forwarding the token and the admin flag |
| Database.TestTableSql | database.py:216-236 | the test-table DDL begins `CREATE TABLE IF NOT EXISTS {table} (` |
| Database.CreateTestTable | database.py:200-245 | a plain POST to `/rest/v1/rpc/exec_sql`, forwarding the token, admin by default, whose body is `{"query": …}` with no other key, carrying the test-table DDL, which begins `CREATE TABLE IF NOT EXISTS {table} (` |
| Database.DeleteTable | database.py:247-272 | a plain POST to `/rest/v1/rpc/exec_sql`, forwarding the token, admin by default, whose body is `{"query": …}` with no other key, carrying the drop statement |
| Database.DropTableSqlInjective | database.py:263 | different tables are dropped by different statements |
| Database.TableHelpersNeedServiceRoleKey | database.py:200-272 | with the default admin flag and no service-role key, both table helpers fail before anything is sent |
| Storage.WithBucketOptions | storage.py:39-45 | the size limit and the MIME types are added exactly when they are not `None`, with the given values, and the other fields are kept |
| Storage.CreateBucket | storage.py:16-62 | a plain POST of `name`, `public` and the given options, always made as admin, forwarding the token |
| Storage.UpdateBucketFields | storage.py:126-135 | only the fields that are not `None` are sent, each with its given value; the body is empty exactly when none is given |
| Storage.UpdateBucket | storage.py:105-142 | a plain PUT of those fields, never as admin, forwarding the token |
| Storage.GetBucket | storage.py:64-83 | a plain GET of the bucket without body, forwarding token and admin flag |
| Storage.ListBuckets | storage.py:85-103 | a plain GET of the bucket collection without body, forwarding token and admin flag |
| Storage.DeleteBucket | storage.py:144-164 | a plain DELETE of the bucket with an explicit empty body, forwarding token and admin flag |
| Storage.EmptyBucket | storage.py:166-183 | a plain POST without body to the bucket's `/empty` endpoint, never as admin, forwarding the token |
| Storage.SetContentType | storage.py:214-230 | the extension chain sets `Content-Type` to the caller's type when given, else to the type the lower-cased extension calls for, else `application/octet-stream` |
| Storage.InferContentTypeIgnoresCase | storage.py:218-228 | the inferred type does not depend on the case of the path |
| Storage.NoExtensionIsOctetStream | storage.py:218-230 | a path without a dot is uploaded as `application/octet-stream` |
| Storage.UploadErrorDetails | storage.py:264-270 | upload error details are the JSON body, or `{status, text}` holding the status and the response text (empty when there is none) when it is not JSON |
| Storage.ClassifyUpload | storage.py:240-277 | an upload succeeds exactly for a non-error status with a JSON body; every HTTP-client failure becomes an API error, with a status exactly when an error response came back, and with details `{}` when none did; other exceptions propagate |
| Storage.UploadFile | storage.py:185-277 | the default headers fail before anything is sent for an admin without a key; one POST to the object URL, without query or body, with the content type set and a 30-second timeout; its outcome is classified as above |
| Storage.UploadDiffersFromHelper | storage.py:247-277 | unlike the shared helper, a 401/403 upload is an API error with its status, and an empty success body is an error |
| Storage.ListParams | storage.py:362-366 | the listing options are the given prefix, limit and offset, plus `sort_by` exactly when one is given, holding every sort key with its value |
| Storage.ListFiles | storage.py:332-395 | the options are POSTed first; a second request, a GET with the same options as query, is made exactly when the first fails; the result is that of the last request |
| Storage.NormalisePaths | storage.py:484-489 | `paths` becomes a list; `path` is used only when `paths` is absent; with neither there is no list |
| Storage.PathIgnoredWhenPathsGiven | storage.py:484-485 | `path` has no effect once `paths` is given |
| Storage.SingleDelete | storage.py:499-509 | the plain single DELETE targets the object whose key is the path without its leading slashes |
| Storage.BatchDelete | storage.py:494-523 | the plain batch removal POSTs `{"prefixes": paths}` to the bucket's `/remove` endpoint |
| Storage.DeleteListed | storage.py:497-525 | for exactly one non-empty path the single DELETE is tried first and returned on success; otherwise, or on its failure, the batch removal decides the result |
| Storage.DeleteFile | storage.py:457-529 | with no path at all `len(None)` raises before any request; for one non-empty path the single DELETE alone is made when it succeeds, and the batch removal after it, deciding the result, when it fails; otherwise only the batch removal is made |
| Storage.TransferPayload | storage.py:420-424 | move and copy send exactly `bucketId`, `sourceKey` and `destinationKey`, holding the bucket, source and destination |
| Storage.MoveFile | storage.py:397-425 | a plain POST of the transfer body to `/storage/v1/object/move`, never as admin, forwarding the token |
| Storage.CopyFile | storage.py:427-455 | a plain POST of the transfer body to `/storage/v1/object/copy`, never as admin, forwarding the token |
| Storage.MoveAndCopyDifferOnlyInEndpoint | storage.py:416-455 | moving and copying differ only in the endpoint |
| Storage.CreateSignedUrl | storage.py:531-555 | a plain POST of `{"expiresIn": n}` to the object's sign endpoint, never as admin, forwarding the token |
| Storage.CreateSignedUrls | storage.py:557-581 | a plain POST of the expiry and the path list to the bucket's sign endpoint, never as admin, forwarding the token |
| Storage.CreateSignedUploadUrl | storage.py:583-601 | a plain POST without body to the object's upload-sign endpoint, never as admin, forwarding the token |
| Storage.PublicUrl | storage.py:654 | the public URL is the bucket's public prefix followed by the path |
| Storage.PublicUrlRoundTrip | storage.py:654 | the path read back from a public URL is the path it was made from |
| Storage.GetPublicUrl | storage.py:629-654 | whatever the bucket lookup gives, the public URL of the object is returned |
| Auth.UserPayload | auth.py:28-34 | the user body holds email and password, plus `user_metadata` exactly when it is non-empty |
| Auth.CreateUser | auth.py:14-38 | a plain admin POST without token of the user body to `/auth/v1/admin/users` |
| Auth.AdminCreateUser | auth.py:430-460 | the same plain admin POST without token, with `email_confirm` added |
| Auth.CreateAnonymousUser | auth.py:40-47 | a plain POST of `{}` to `/auth/v1/signup` without token, never as admin |
| Auth.GrantEndpointRoundTrip | auth.py:65 | the token endpoint names exactly the grant type it was built with |
| Auth.SignInWithEmail | auth.py:49-68 | a plain POST of email and password to the password grant without token, forwarding the admin flag |
| Auth.SignInWithIdToken | auth.py:70-85 | a plain POST of provider and ID token to the `id_token` grant without token, never as admin |
| Auth.RefreshSession | auth.py:201-215 | a plain POST of the refresh token to the `refresh_token` grant without token, never as admin |
| Auth.SignInWithOtp | auth.py:87-99 | a plain POST of the email to `/auth/v1/otp` without token, never as admin |
| Auth.VerifyOtp | auth.py:101-117 | a plain POST of exactly the email, the token and the type (`email` by default) to `/auth/v1/verify` without user token, never as admin |
| Auth.SignInWithOauth | auth.py:119-134 | a plain POST of the redirect to the provider's authorize endpoint without token, never as admin |
| Auth.SignInWithSso | auth.py:136-151 | a plain POST of domain and redirect to `/auth/v1/sso` without token, never as admin |
| Auth.SignOut | auth.py:153-165 | a plain POST without body to `/auth/v1/logout` with the user's token, never as admin |
| Auth.ResetPassword | auth.py:167-185 | a plain POST of the email to `/auth/v1/recover` without token, plus `redirect_to` exactly when a non-empty redirect is given, forwarding the admin flag |
| Auth.GetSession | auth.py:187-199 | a plain GET without body of `/auth/v1/user` with the user's token, never as admin |
| Auth.GetUserByToken | auth.py:318-333 | the same request as `get_session` |
| Auth.SetSessionData | auth.py:300-316 | a plain PUT of `{"data": data}` to `/auth/v1/user` with the user's token, never as admin |
| Auth.GetUser | auth.py:217-229 | a plain admin GET without body or token of the user |
| Auth.UpdateUser | auth.py:231-247 | a plain admin PUT without token of the user data |
| Auth.ListUsers | auth.py:413-428 | a plain admin GET without body or token of the user list with page and page size in the query |
| Auth.ListUsersEndpointInjective | auth.py:426 | different page/page-size pairs give different endpoints |
| Auth.PageQueryInjective | auth.py:426 | the query after `?page=` determines the page and the page size |
| Auth.GetUserIdentities | auth.py:249-260 | the user's `identities`, `[]` when absent; errors of `get_user` propagate; a non-dict reply raises `AttributeError` |
| Auth.AdminOnlyNeedsServiceRoleKey | auth.py:217-260 | without a service-role key every admin-only user call fails before anything is sent |
| Auth.LinkIdentity | auth.py:262-281 | a plain POST of the redirect to the identity authorize endpoint with the user's token, never as admin |
| Auth.UnlinkIdentity | auth.py:283-298 | a plain DELETE without body of the identity with the user's token, never as admin |
| Auth.EnrollMfaFactor | auth.py:336-354 | a plain POST of the factor type, `totp` by default, with the user's token, never as admin |
| Auth.CreateMfaChallenge | auth.py:356-372 | a plain POST of the factor id to the challenge endpoint with the user's token, never as admin |
| Auth.VerifyMfaChallenge | auth.py:374-394 | a plain POST of exactly the factor id, the challenge id and the code to the verify endpoint with the user's token, never as admin |
| Auth.UnenrollMfaFactor | auth.py:396-411 | a plain DELETE without body of the factor with the user's token, never as admin |
| Realtime.SubscribeToChannel | realtime.py:14-43 | a plain POST of channel, event (`*` by default) and `config.private = true`, forwarding the token, admin by default |
| Realtime.UnsubscribeFromChannel | realtime.py:45-68 | a plain POST of the subscription id, forwarding the token, admin by default |
| Realtime.BroadcastMessage | realtime.py:215-244 | a plain POST of exactly the channel, the event (`broadcast` by default) and the payload, forwarding the token, admin by default |
| Realtime.UnsubscribeAllRequest | realtime.py:108-114 | the server-side unsubscribe-all request is a plain POST of `{}`, forwarding the token and the admin flag |
| Realtime.UnsubscribeAll | realtime.py:70-163 | never fails; the response always carries recommendation and RLS info; on success `status` is `success` with the server reply; on failure `status` stays `warning` with `{status: error, message: str(e)}` |
| Realtime.ChannelsRequest | realtime.py:190-195 | the channel list is always requested as admin, by a plain GET without body, forwarding the token |
| Realtime.GetChannels | realtime.py:165-213 | the server's answer; on failure the empty channel list exactly when the lower-cased message mentions 403, forbidden or unauthorized, else the error |
| Realtime.ServiceRoleRequiredLacks | _service.py:89-91 | the missing-key message contains no `4`, `b` or `z` in either case |
| Realtime.ConnectionMessageLacks | _service.py:206-208 | the connection-error message contains no `4`, `f` or `z` in either case |
| Realtime.GetChannelsRaisesMissingKeyAndConnectionErrors | realtime.py:196-213 | a missing service-role key and an unreachable server are not mistaken for permission failures: `get_channels` raises them |
| ChannelRegistry.Insert | functions/realtime.py:48 | assigning a key keeps the names distinct; an existing name keeps its place, and a new name goes last after the others in order |
| ChannelRegistry.Remove | functions/realtime.py:67 | deleting a key removes exactly that name and keeps the others distinct |
| ChannelRegistry.RemoveAfterInsert | functions/realtime.py:48-67 | registering a new channel and deleting it again restores the registry order |
| ChannelRegistry.Remaining | functions/realtime.py:79-80 | what `unsubscribe_all` leaves is a suffix of the snapshot that starts at a failing unsubscribe |
| ChannelRegistry.RemainingEmpty | functions/realtime.py:79-80 | nothing is left exactly when every unsubscribe succeeds |
| ChannelRegistry.RemainingAfterSucceeded | functions/realtime.py:79-80 | a prefix of successful unsubscribes does not change what is left |
| ChannelRegistry.ChannelCount | functions/realtime.py:89 | a distinct name list holding exactly the registry's keys has one name per key |
| ChannelRegistry.Registry.constructor | functions/realtime.py:20-23 | the registry starts empty and disconnected |
| ChannelRegistry.Registry.Channels | functions/realtime.py:82-89 | `get_channels` lists every registered channel exactly once and nothing else, in registration order |
| ChannelRegistry.Registry.Connect | functions/realtime.py:39-40 | connects only when not connected; a connect failure propagates outside the `try` |
| ChannelRegistry.Registry.Subscribe | functions/realtime.py:25-55 | on success the channel maps to the new subscription, replacing an earlier one; the callback is registered only when given; an SDK failure leaves the registry unchanged and raises HTTP 500 |
| ChannelRegistry.Registry.SubscribePrivate | functions/realtime.py:116-145 | the same with the user's RLS token and the private-channel message |
| ChannelRegistry.Registry.Unsubscribe | functions/realtime.py:57-73 | an unregistered channel is a no-op; a registered one is removed only after the SDK unsubscribe succeeds, and kept with HTTP 500 on failure |
| ChannelRegistry.Registry.UnsubscribeAll | functions/realtime.py:75-80 | goes through a snapshot of the names in order and stops at the first failure, which it raises; the registry keeps exactly the remaining entries |
| ChannelRegistry.Registry.BroadcastMessage | functions/realtime.py:91-114 | a registered channel gets the message with the event as type and event; an SDK failure raises HTTP 500; an unregistered channel raises `ValueError`; the registry is unchanged |
| ChannelRegistry.Registry.AddCallback | functions/realtime.py:147-159 | appends one callback to a registered channel's subscription; an unregistered channel raises `ValueError` and nothing changes |
| ChannelRegistry.Registry.CloseAll | functions/realtime.py:161-170 | unsubscribes everything, then disconnects if connected; every error is swallowed and a failed unsubscribe skips the disconnect |
| EdgeFunctions.InvokeFunction | edge_functions.py:13-48 | the headers are computed first, so an admin call without a key fails before anything is sent; caller headers override the defaults; method, body (even `None`), token and admin flag are forwarded; the merged headers are sent unchanged |
| EdgeFunctions.MockFunction | edge_functions.py:89 | a placeholder answer is exactly `{name, status}` |
| EdgeFunctions.MockFunctionRoundTrip | edge_functions.py:89 | a placeholder answer reports the name and status it was made from |
| EdgeFunctions.ListFunctions | edge_functions.py:53-65 | listing always returns the empty list |
| EdgeFunctions.CreateFunction | edge_functions.py:67-89 | answers exactly `{name, status}` with the name and status `MOCK_CREATED` |
| EdgeFunctions.GetFunction | edge_functions.py:108-123 | answers exactly `{name, status}` with the name and status `MOCK_ACTIVE` |
| EdgeFunctions.UpdateFunction | edge_functions.py:125-147 | answers exactly `{name, status}` with the name and status `MOCK_UPDATED` |
| EdgeFunctions.DeleteFunction | edge_functions.py:91-106 | answers exactly `{name, status}` with the name and status `MOCK_DELETED` |
| EdgeFunctions.PlaceholdersIgnoreTheirArguments | edge_functions.py:67-147 | the placeholders ignore source code, JWT setting and import map, and their answers differ from each other |
| ClientInit.Resolve | init.py:35-80 | a cached client is returned as is; else a missing URL, then a missing key, raise `ValueError`; else the created client is cached and returned, and a creation failure propagates with nothing cached |
| ClientInit.ResolveIsIdempotent | init.py:50-52 | once a client exists, every later call returns it and leaves the cache alone, whatever the environment and `create_client` do |
| ClientInit.ResolveFailureCachesNothing | init.py:60-80 | a failed call leaves the cache empty, so the next call tries again |
| ClientInit.UrlIsCheckedFirst | init.py:60-68 | a missing URL is reported whatever the key, and `create_client` is not consulted |
| ClientInit.ClientCache.constructor | init.py:32 | the cache starts empty |
| ClientInit.ClientCache.Initialize | init.py:35-80 | `initialize_supabase` computes exactly `Resolve` on the cache |
| ClientInit.ClientCache.Get | init.py:83-100 | `get_supabase_client` computes the same as `initialize_supabase` |
| Text.Lower | storage.py:219 | lower-casing keeps the length and maps each character |
| Text.Extension | storage.py:218 | the extension is empty or a final suffix of the path that starts with its only dot and contains no `/` |
| Text.ExtensionIsSplitext | storage.py:218 | as `os.path.splitext` does, the extension is non-empty exactly when the last dot of the path has no `/` after it and a character other than a dot before it in the same component, and then runs from that dot to the end |
| Text.StripLeading | storage.py:506 | stripping leaves a suffix that does not start with the character, preceded only by that character |
| Text.IntToStringInjective | auth.py:426 | different integers are rendered differently |
| Text.NatToStringInjective | auth.py:426 | different naturals are rendered differently |
| Json.OrEmpty | database.py:197 | `x or {}` is `x` when it is truthy, else `{}` |
| Json.PyStr | database.py:43 | `str()` of a string is itself, and of an integer its decimal rendering |

## Left out

- `download_file` and `upload_to_signed_url` in `storage.py`: they return or send raw bytes, and their content-type guess uses the `mimetypes` module. Neither is modelled.
- The uploaded bytes. `Storage.UploadFile` puts no body on the wire; the verb, URL, headers, timeout and empty query are modelled.
- Logging, and the `print` in `init.py`. They have no effect on results.
- The Realtime SDK and the async websocket connection in `functions/realtime.py`. Each SDK step is a parameter that succeeds or fails, and awaiting is not modelled.
- `self.client` in `functions/realtime.py` is never assigned anywhere in the repository. The registry is modelled as if it were configured.
- The `_configure_service` methods of the `functions/` services: `SupabaseService.__init__` never calls them.
- `ChannelRegistry.Registry.AddCallback`: the SDK's `on` is taken never to fail; the source does not catch it.
- `ChannelRegistry.Registry.CloseAll`: a failed disconnect is taken to leave the client connected.
- Import-time code of `init.py` (loading env files, reordering `sys.path`, the `ImportError` message), and the `client.py`, `service.py` and `_example.py` modules. None of them is part of this model.
- `functions/auth.py` imports `dict` and `list` from `typing` and so fails at import time. Its operations are modelled as those of `auth.py`.
- `Realtime.UnsubscribeAll`: the `status_code` field and the 403 advice are not modelled. They are added only when the exception has a `response` attribute, and the errors raised by the shared helper have none.
- `Realtime.GetChannels`: `str(e)` is the parameter `describe`, because the text of API and authentication errors involves Python's `repr` of dicts.
- `Realtime.UnsubscribeAll`: `str(e)` is likewise the parameter `describe`.
- `Database.TestTableSql`: the DDL is one line. The source's leading newline, indentation and line breaks are not reproduced, and neither are its two `--` comment lines.
- Exception messages built from `str()` of an HTTP error or of a dict are not modelled. These are `Supabase API error: …` and `Authentication error: …` in the shared helper, and `Error uploading file: …` in `upload_file`. `ApiError` keeps only the status and details, and a rejected call's `AuthError` keeps only its cause.
- Floating-point, list and dict values in filters and JSON are not modelled. Filter values are strings, integers, booleans or `None`.
- `Text.Lower`: only ASCII letters are lower-cased. Python's Unicode case mapping is not modelled.
- The HTTP client is taken to be `requests` 2.27 or later:
  - a body that does not decode as JSON raises a `RequestException`;
  - a connect timeout counts as a connection error;
  - `raise_for_status` raises for statuses 400 to 599 only.
- Python `None` and the empty string are both modelled as unset for settings and tokens; both are falsy wherever the source tests them.
- Dict key order is modelled only in the channel registry, where `get_channels` and `unsubscribe_all` expose it. Everywhere else dicts are maps.
