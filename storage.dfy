/** The storage service: buckets and objects under `/storage/v1`. Most operations build one
    request descriptor for the shared helper; `upload_file` talks to the HTTP client itself,
    and `list_files` and `delete_file` try one request and fall back to another. The
    fallback procedures return, besides their result, the descriptors they handed to the
    helper, in order. */
module Storage {
  import opened Wrappers
  import opened Json
  import opened Service
  import Text

  // ---------------------------------------------------------------- buckets

  const BUCKET_ENDPOINT := "/storage/v1/bucket"

  /** `fields` with the optional fields of a bucket added, each exactly when it is not `None`. */
  function WithBucketOptions(fields: map<string, Json>, sizeLimit: Option<int>, mimeTypes: Option<seq<string>>): (r: map<string, Json>)
    ensures r.Keys == fields.Keys + (if sizeLimit.Some? then {"file_size_limit"} else {})
                                  + (if mimeTypes.Some? then {"allowed_mime_types"} else {})
    ensures sizeLimit.Some? ==> r["file_size_limit"] == JInt(sizeLimit.value)
    ensures mimeTypes.Some? ==> r["allowed_mime_types"] == StrArray(mimeTypes.value)
    ensures forall k :: k in fields && k != "file_size_limit" && k != "allowed_mime_types" ==> r[k] == fields[k]
  {
    var sized := if sizeLimit.Some? then fields["file_size_limit" := JInt(sizeLimit.value)] else fields;
    if mimeTypes.Some? then sized["allowed_mime_types" := StrArray(mimeTypes.value)] else sized
  }

  /** `create_bucket`: a POST of `name`, `public` and the optional fields; the request is made
      with the service-role key whatever `is_admin` says. */
  method CreateBucket(bucket: string, public: bool := false, sizeLimit: Option<int> := None,
                      mimeTypes: Option<seq<string>> := None, token: Option<string> := None,
                      isAdmin: bool := false) returns (req: Request)
    ensures req.verb == "POST" && req.endpoint == BUCKET_ENDPOINT
    ensures req.isAdmin && req.token == token && Plain(req)
    ensures req.body == Some(JObj(WithBucketOptions(map["name" := JStr(bucket), "public" := JBool(public)], sizeLimit, mimeTypes)))
  {
    var data := map["name" := JStr(bucket), "public" := JBool(public)];
    if sizeLimit.Some? {
      data := data["file_size_limit" := JInt(sizeLimit.value)];
    }
    if mimeTypes.Some? {
      data := data["allowed_mime_types" := StrArray(mimeTypes.value)];
    }
    var admin := isAdmin;
    if !admin {
      admin := true;
    }
    req := Request("POST", BUCKET_ENDPOINT, token := token, isAdmin := admin, body := Some(JObj(data)));
  }

  /** The body of `update_bucket`: only the fields that are not `None`, possibly none. */
  function UpdateBucketFields(public: Option<bool>, sizeLimit: Option<int>, mimeTypes: Option<seq<string>>): (fields: map<string, Json>)
    ensures fields.Keys == (if public.Some? then {"public"} else {})
                         + (if sizeLimit.Some? then {"file_size_limit"} else {})
                         + (if mimeTypes.Some? then {"allowed_mime_types"} else {})
    ensures public.Some? ==> fields["public"] == JBool(public.value)
    ensures sizeLimit.Some? ==> fields["file_size_limit"] == JInt(sizeLimit.value)
    ensures mimeTypes.Some? ==> fields["allowed_mime_types"] == StrArray(mimeTypes.value)
    ensures fields == map[] <==> public.None? && sizeLimit.None? && mimeTypes.None?
  {
    WithBucketOptions(if public.Some? then map["public" := JBool(public.value)] else map[], sizeLimit, mimeTypes)
  }

  /** `update_bucket`: a PUT of the given fields, never with the service-role key. */
  method UpdateBucket(bucket: string, public: Option<bool> := None, sizeLimit: Option<int> := None,
                      mimeTypes: Option<seq<string>> := None, token: Option<string> := None) returns (req: Request)
    ensures req.verb == "PUT" && req.endpoint == BUCKET_ENDPOINT + "/" + bucket
    ensures !req.isAdmin && req.token == token && Plain(req)
    ensures req.body == Some(JObj(UpdateBucketFields(public, sizeLimit, mimeTypes)))
  {
    var data := map[];
    if public.Some? {
      data := data["public" := JBool(public.value)];
    }
    if sizeLimit.Some? {
      data := data["file_size_limit" := JInt(sizeLimit.value)];
    }
    if mimeTypes.Some? {
      data := data["allowed_mime_types" := StrArray(mimeTypes.value)];
    }
    req := Request("PUT", BUCKET_ENDPOINT + "/" + bucket, token := token, body := Some(JObj(data)));
  }

  /** `get_bucket`. */
  function GetBucket(bucket: string, token: Option<string> := None, isAdmin: bool := false): (req: Request)
    ensures req.verb == "GET" && req.endpoint == BUCKET_ENDPOINT + "/" + bucket
    ensures req.token == token && req.isAdmin == isAdmin && req.body.None? && Plain(req)
  {
    Request("GET", BUCKET_ENDPOINT + "/" + bucket, token := token, isAdmin := isAdmin)
  }

  /** `list_buckets`. */
  function ListBuckets(token: Option<string> := None, isAdmin: bool := false): (req: Request)
    ensures req.verb == "GET" && req.endpoint == BUCKET_ENDPOINT
    ensures req.token == token && req.isAdmin == isAdmin && req.body.None? && Plain(req)
  {
    Request("GET", BUCKET_ENDPOINT, token := token, isAdmin := isAdmin)
  }

  /** `delete_bucket`: a DELETE that carries an explicit empty body. */
  function DeleteBucket(bucket: string, token: Option<string> := None, isAdmin: bool := false): (req: Request)
    ensures req.verb == "DELETE" && req.endpoint == BUCKET_ENDPOINT + "/" + bucket
    ensures req.token == token && req.isAdmin == isAdmin && req.body == Some(EmptyObject) && Plain(req)
  {
    Request("DELETE", BUCKET_ENDPOINT + "/" + bucket, token := token, isAdmin := isAdmin, body := Some(EmptyObject))
  }

  /** `empty_bucket`. */
  function EmptyBucket(bucket: string, token: Option<string> := None): (req: Request)
    ensures req.verb == "POST" && req.endpoint == BUCKET_ENDPOINT + "/" + bucket + "/empty"
    ensures req.token == token && !req.isAdmin && req.body.None? && Plain(req)
  {
    Request("POST", BUCKET_ENDPOINT + "/" + bucket + "/empty", token := token)
  }

  // ---------------------------------------------------------- content types

  const OCTET_STREAM := "application/octet-stream"

  /** The content type of each known extension, in lower case. */
  const ExtensionTypes: map<string, string> := map[
    ".jpg" := "image/jpeg", ".jpeg" := "image/jpeg", ".png" := "image/png",
    ".pdf" := "application/pdf", ".txt" := "text/plain", ".md" := "text/plain",
    ".json" := "application/json"]

  /** The content type the extension of `path` calls for, ignoring case. */
  function InferContentType(path: string): string {
    var ext := Text.Lower(Text.Extension(path));
    if ext in ExtensionTypes then ExtensionTypes[ext] else OCTET_STREAM
  }

  /** The content type of an upload: the caller's when given, else the inferred one. */
  function ContentTypeFor(contentType: Option<string>, path: string): string {
    if Given(contentType) then contentType.value else InferContentType(path)
  }

  /** The content-type branch of `upload_file`, the chain of extension tests, on the header
      dict; it agrees with the table. */
  method SetContentType(headers0: map<string, string>, contentType: Option<string>, path: string) returns (headers: map<string, string>)
    ensures headers == headers0[CONTENT_TYPE := ContentTypeFor(contentType, path)]
  {
    headers := headers0;
    if Given(contentType) {
      headers := headers[CONTENT_TYPE := contentType.value];
    } else {
      var ext := Text.Lower(Text.Extension(path));
      if ext == ".jpg" || ext == ".jpeg" {
        headers := headers[CONTENT_TYPE := "image/jpeg"];
      } else if ext == ".png" {
        headers := headers[CONTENT_TYPE := "image/png"];
      } else if ext == ".pdf" {
        headers := headers[CONTENT_TYPE := "application/pdf"];
      } else if ext == ".txt" || ext == ".md" {
        headers := headers[CONTENT_TYPE := "text/plain"];
      } else if ext == ".json" {
        headers := headers[CONTENT_TYPE := "application/json"];
      } else {
        headers := headers[CONTENT_TYPE := OCTET_STREAM];
      }
    }
  }

  /** The inferred type does not depend on the case of the path. */
  lemma InferContentTypeIgnoresCase(path: string)
    ensures InferContentType(Text.Lower(path)) == InferContentType(path)
  {
    Text.ExtensionOfLower(path);
    Text.LowerIdempotent(Text.Extension(path));
  }

  /** A path with no '.' at all is sent as an opaque byte stream. */
  lemma NoExtensionIsOctetStream(path: string)
    requires '.' !in path
    ensures InferContentType(path) == OCTET_STREAM
  {
    var dot := Text.LastIndexOf(path, '.');
    assert dot == -1;
    assert Text.Extension(path) == [];
    assert Text.Lower([]) == [];
    assert [] !in ExtensionTypes;
  }

  // ---------------------------------------------------------------- uploads

  const UPLOAD_TIMEOUT: nat := 30

  function ObjectUrl(baseUrl: string, bucket: string, path: string): string {
    baseUrl + "/storage/v1/object/" + bucket + "/" + path
  }

  /** The details of a failed upload: the JSON body, or `{status, text}` when it is not JSON. */
  function UploadErrorDetails(status: int, body: Body): (details: Json)
    ensures body.JsonContent? ==> details == body.value
    ensures !body.JsonContent? ==> details.JObj? && details.fields.Keys == {"status", "text"}
    ensures !body.JsonContent? ==> details.fields["status"] == JInt(status)
    ensures body.TextContent? ==> details.fields["text"] == JStr(body.text)
    ensures body.NoContent? ==> details.fields["text"] == JStr("")
  {
    match body
    case JsonContent(j) => j
    case TextContent(text, _) => JObj(map["status" := JInt(status), "text" := JStr(text)])
    case NoContent => JObj(map["status" := JInt(status), "text" := JStr("")])
  }

  /** The outcome of an upload as `upload_file` reports it: every failure of the HTTP client,
      an error status (401 and 403 included) or a body that is not JSON becomes an API error,
      which carries a status only when there was an error response; anything else raised
      propagates unchanged. */
  function ClassifyUpload(outcome: Outcome): (r: Result<Json, Error>)
    ensures r.Ok? <==> outcome.Response? && !IsErrorStatus(outcome.status) && outcome.body.JsonContent?
    ensures r.Ok? ==> r.value == outcome.body.value
    ensures r.Err? && !outcome.OtherFailure? ==> r.error.ApiError?
    ensures r.Err? && r.error.ApiError? ==>
      (r.error.statusCode.Some? <==> outcome.Response? && IsErrorStatus(outcome.status))
    ensures outcome.Response? && IsErrorStatus(outcome.status) ==>
      r == Err(ApiErrorOf(Some(outcome.status), UploadErrorDetails(outcome.status, outcome.body)))
    ensures outcome.OtherFailure? ==> r == Err(Raised(outcome.detail))
    ensures r.Err? && !outcome.OtherFailure? && !(outcome.Response? && IsErrorStatus(outcome.status)) ==>
      r.error.details == EmptyObject
  {
    match outcome
    case Response(status, body) =>
      if IsErrorStatus(status) then Err(ApiErrorOf(Some(status), UploadErrorDetails(status, body)))
      else if body.JsonContent? then Ok(body.value)
      else Err(ApiErrorOf(None, JNull))
    case OtherFailure(detail) => Err(Raised(detail))
    case _ => Err(ApiErrorOf(None, JNull))
  }

  /** `upload_file`: the default headers (which fail, before anything is sent, for an admin
      without a service-role key), the content type set over them, one POST to the object URL. */
  method UploadFile(cfg: Config, net: Wire -> Outcome, bucket: string, path: string,
                    contentType: Option<string> := None, token: Option<string> := None,
                    isAdmin: bool := false) returns (r: Result<Json, Error>, sent: Option<Wire>)
    ensures sent.None? <==> isAdmin && cfg.serviceRoleKey == ""
    ensures sent.None? ==> r == Err(AuthError(MissingServiceRoleKey))
    ensures sent.Some? ==>
      && sent.value.verb == "POST"
      && sent.value.url == ObjectUrl(cfg.baseUrl, bucket, path)
      && sent.value.headers == Headers(cfg, token, isAdmin).value[CONTENT_TYPE := ContentTypeFor(contentType, path)]
      && sent.value.timeout == UPLOAD_TIMEOUT
      && sent.value.params == map[] && sent.value.body.None?
      && r == ClassifyUpload(net(sent.value))
  {
    var url := ObjectUrl(cfg.baseUrl, bucket, path);
    var defaults := Headers(cfg, token, isAdmin);
    if defaults.Err? {
      return Err(defaults.error), None;
    }
    var headers := SetContentType(defaults.value, contentType, path);
    var wire := Wire("POST", url, headers, None, map[], UPLOAD_TIMEOUT);
    sent := Some(wire);
    r := ClassifyUpload(net(wire));
  }

  /** Unlike the shared helper, an upload rejected with 401 or 403 is an API error carrying the
      status, not an authentication error, and an empty success body is an error, not `{}`. */
  lemma UploadDiffersFromHelper(status: int)
    requires IsAuthStatus(status)
    ensures ClassifyUpload(Response(status, NoContent)).error.ApiError?
    ensures ClassifyUpload(Response(status, NoContent)).error.statusCode == Some(status)
    ensures Classify(Response(status, NoContent), DEFAULT_TIMEOUT).error.AuthError?
    ensures ClassifyUpload(Response(200, NoContent)).Err?
    ensures Classify(Response(200, NoContent), DEFAULT_TIMEOUT) == Ok(EmptyObject)
  {
  }

  // ------------------------------------------------------------ listing files

  function ListEndpoint(bucket: string): string {
    "/storage/v1/object/list/" + bucket
  }

  /** The listing options: prefix, limit and offset, and the sort order when one is given. */
  function ListParams(prefix: string, limit: int, offset: int, sortBy: map<string, string>): (params: map<string, Json>)
    ensures params.Keys == {"prefix", "limit", "offset"} + (if sortBy != map[] then {"sort_by"} else {})
    ensures params["prefix"] == JStr(prefix) && params["limit"] == JInt(limit) && params["offset"] == JInt(offset)
    ensures sortBy != map[] ==> params["sort_by"].JObj? && params["sort_by"].fields.Keys == sortBy.Keys
    ensures sortBy != map[] ==> forall k | k in sortBy :: params["sort_by"].fields[k] == JStr(sortBy[k])
  {
    var params := map["prefix" := JStr(prefix), "limit" := JInt(limit), "offset" := JInt(offset)];
    if sortBy != map[] then params["sort_by" := JObj(map k | k in sortBy :: JStr(sortBy[k]))] else params
  }

  /** `list_files`: the options are POSTed as the body; when that raises anything, they are
      sent once more by GET as the query, and a second failure is raised. */
  method ListFiles(cfg: Config, net: Wire -> Outcome, bucket: string, prefix: string := "",
                   limit: int := 100, offset: int := 0, sortBy: map<string, string> := map[],
                   token: Option<string> := None, isAdmin: bool := false)
    returns (r: Result<Json, Error>, attempts: seq<Request>)
    ensures 1 <= |attempts| <= 2
    ensures attempts[0] == Request("POST", ListEndpoint(bucket), token := token, isAdmin := isAdmin,
                                   body := Some(JObj(ListParams(prefix, limit, offset, sortBy))))
    ensures |attempts| == 1 <==> Perform(cfg, net, attempts[0]).Ok?
    ensures |attempts| == 2 ==>
      attempts[1] == Request("GET", ListEndpoint(bucket), token := token, isAdmin := isAdmin,
                             params := ListParams(prefix, limit, offset, sortBy))
    ensures r == Perform(cfg, net, attempts[|attempts| - 1])
  {
    var params := map["prefix" := JStr(prefix), "limit" := JInt(limit), "offset" := JInt(offset)];
    if sortBy != map[] {
      params := params["sort_by" := JObj(map k | k in sortBy :: JStr(sortBy[k]))];
    }
    var post := Request("POST", ListEndpoint(bucket), token := token, isAdmin := isAdmin, body := Some(JObj(params)));
    var sent;
    r, sent := MakeRequest(cfg, net, post);
    attempts := [post];
    if r.Err? {
      var get := Request("GET", ListEndpoint(bucket), token := token, isAdmin := isAdmin, params := params);
      r, sent := MakeRequest(cfg, net, get);
      attempts := attempts + [get];
    }
  }

  // ----------------------------------------------------------- deleting files

  /** The `paths` argument: absent, one path, or a list of paths. */
  datatype PathsArg = NoPaths | OnePath(path: string) | PathList(paths: seq<string>)

  /** The path list `delete_file` works on: `paths` as a list, else `path` as a one-element list;
      `None` when neither was given. */
  function NormalisePaths(paths: PathsArg, path: Option<string>): (r: Option<seq<string>>)
    ensures paths.PathList? ==> r == Some(paths.paths)
    ensures paths.OnePath? ==> r == Some([paths.path])
    ensures paths.NoPaths? ==> r == if path.Some? then Some([path.value]) else None
  {
    match paths
    case PathList(ps) => Some(ps)
    case OnePath(p) => Some([p])
    case NoPaths => if path.Some? then Some([path.value]) else None
  }

  const NO_LEN_MESSAGE := "object of type 'NoneType' has no len()"

  function ObjectPrefix(bucket: string): string {
    "/storage/v1/object/" + bucket + "/"
  }

  /** The DELETE of one object; the key is the path without its leading slashes. */
  function SingleDelete(bucket: string, path: string, token: Option<string>, isAdmin: bool): (req: Request)
    ensures req.verb == "DELETE" && req.token == token && req.isAdmin == isAdmin && req.body.None? && Plain(req)
    ensures var prefix := ObjectPrefix(bucket);
      && |prefix| <= |req.endpoint| && req.endpoint[..|prefix|] == prefix
      && var key := req.endpoint[|prefix|..];
      && (key == [] || key[0] != '/')
      && |key| <= |path| && path[|path| - |key|..] == key
      && (forall i :: 0 <= i < |path| - |key| ==> path[i] == '/')
  {
    var key := Text.StripLeading(path, '/');
    var req := Request("DELETE", ObjectPrefix(bucket) + key, token := token, isAdmin := isAdmin);
    assert req.endpoint[|ObjectPrefix(bucket)|..] == key;
    req
  }

  /** The batch removal of a list of objects: a POST of `{"prefixes": paths}`. */
  function BatchDelete(bucket: string, paths: seq<string>, token: Option<string>, isAdmin: bool): (req: Request)
    ensures req.verb == "POST" && req.endpoint == BUCKET_ENDPOINT + "/" + bucket + "/remove"
    ensures req.token == token && req.isAdmin == isAdmin && Plain(req)
    ensures req.body == Some(JObj(map["prefixes" := StrArray(paths)]))
  {
    Request("POST", BUCKET_ENDPOINT + "/" + bucket + "/remove", token := token, isAdmin := isAdmin,
            body := Some(JObj(map["prefixes" := StrArray(paths)])))
  }

  /** The requests of `delete_file` for a normalised list: for exactly one non-empty path the
      single DELETE, whose result is returned when it succeeds; otherwise, or when it fails,
      the batch removal, whose result (or error) is returned. */
  method DeleteListed(cfg: Config, net: Wire -> Outcome, bucket: string, list: seq<string>,
                      token: Option<string>, isAdmin: bool) returns (r: Result<Json, Error>, attempts: seq<Request>)
    ensures var batch := BatchDelete(bucket, list, token, isAdmin);
      if |list| == 1 && list[0] != "" then
        var single := SingleDelete(bucket, list[0], token, isAdmin);
        && |attempts| >= 1 && attempts[0] == single
        && (Perform(cfg, net, single).Ok? ==> attempts == [single] && r == Perform(cfg, net, single))
        && (Perform(cfg, net, single).Err? ==> attempts == [single, batch] && r == Perform(cfg, net, batch))
      else
        attempts == [batch] && r == Perform(cfg, net, batch)
  {
    var sent;
    if |list| == 1 && list[0] != "" {
      var single := SingleDelete(bucket, list[0], token, isAdmin);
      r, sent := MakeRequest(cfg, net, single);
      if r.Ok? {
        return r, [single];
      }
      var batch := BatchDelete(bucket, list, token, isAdmin);
      r, sent := MakeRequest(cfg, net, batch);
      attempts := [single, batch];
    } else {
      var batch := BatchDelete(bucket, list, token, isAdmin);
      r, sent := MakeRequest(cfg, net, batch);
      attempts := [batch];
    }
  }

  /** `delete_file`: normalise the arguments, then delete as above; with no path at all,
      `len(None)` raises before any request. */
  method DeleteFile(cfg: Config, net: Wire -> Outcome, bucket: string, paths: PathsArg := NoPaths,
                    path: Option<string> := None, token: Option<string> := None, isAdmin: bool := false)
    returns (r: Result<Json, Error>, attempts: seq<Request>)
    ensures NormalisePaths(paths, path).None? ==> r == Err(TypeError(NO_LEN_MESSAGE)) && attempts == []
    ensures NormalisePaths(paths, path).Some? ==>
      var list := NormalisePaths(paths, path).value;
      var batch := BatchDelete(bucket, list, token, isAdmin);
      if |list| == 1 && list[0] != "" then
        var single := SingleDelete(bucket, list[0], token, isAdmin);
        && (Perform(cfg, net, single).Ok? ==> attempts == [single] && r == Perform(cfg, net, single))
        && (Perform(cfg, net, single).Err? ==> attempts == [single, batch] && r == Perform(cfg, net, batch))
      else
        attempts == [BatchDelete(bucket, list, token, isAdmin)] && r == Perform(cfg, net, attempts[0])
  {
    var ps := paths;
    if path.Some? && ps.NoPaths? {
      ps := OnePath(path.value);
    }
    if ps.OnePath? {
      ps := PathList([ps.path]);
    }
    if ps.NoPaths? {
      return Err(TypeError(NO_LEN_MESSAGE)), [];
    }
    r, attempts := DeleteListed(cfg, net, bucket, ps.paths, token, isAdmin);
  }

  /** `path` is consulted only when `paths` is absent. */
  lemma PathIgnoredWhenPathsGiven(paths: PathsArg, path1: Option<string>, path2: Option<string>)
    requires !paths.NoPaths?
    ensures NormalisePaths(paths, path1) == NormalisePaths(paths, path2)
  {
  }

  // ---------------------------------------------------------- moving, copying

  /** The body shared by `move_file` and `copy_file`. */
  function TransferPayload(bucket: string, source: string, destination: string): (j: Json)
    ensures j.JObj? && j.fields.Keys == {"bucketId", "sourceKey", "destinationKey"}
    ensures j.fields["bucketId"] == JStr(bucket)
    ensures j.fields["sourceKey"] == JStr(source) && j.fields["destinationKey"] == JStr(destination)
  {
    JObj(map["bucketId" := JStr(bucket), "sourceKey" := JStr(source), "destinationKey" := JStr(destination)])
  }

  /** `move_file`. */
  function MoveFile(bucket: string, source: string, destination: string, token: Option<string> := None): (req: Request)
    ensures req.verb == "POST" && req.endpoint == "/storage/v1/object/move" && !req.isAdmin
    ensures req.token == token && Plain(req)
    ensures req.body == Some(TransferPayload(bucket, source, destination))
  {
    Request("POST", "/storage/v1/object/move", token := token, body := Some(TransferPayload(bucket, source, destination)))
  }

  /** `copy_file`. */
  function CopyFile(bucket: string, source: string, destination: string, token: Option<string> := None): (req: Request)
    ensures req.verb == "POST" && req.endpoint == "/storage/v1/object/copy" && !req.isAdmin
    ensures req.token == token && Plain(req)
    ensures req.body == Some(TransferPayload(bucket, source, destination))
  {
    Request("POST", "/storage/v1/object/copy", token := token, body := Some(TransferPayload(bucket, source, destination)))
  }

  /** Moving and copying send the same body to different endpoints. */
  lemma MoveAndCopyDifferOnlyInEndpoint(bucket: string, source: string, destination: string, token: Option<string>)
    ensures MoveFile(bucket, source, destination, token) == CopyFile(bucket, source, destination, token).(endpoint := "/storage/v1/object/move")
  {
  }

  // ------------------------------------------------------------ signed URLs

  /** `create_signed_url`. */
  function CreateSignedUrl(bucket: string, path: string, expiresIn: int := 60, token: Option<string> := None): (req: Request)
    ensures req.verb == "POST" && req.endpoint == "/storage/v1/object/sign/" + bucket + "/" + path
    ensures req.body == Some(JObj(map["expiresIn" := JInt(expiresIn)])) && !req.isAdmin && req.token == token
    ensures Plain(req)
  {
    Request("POST", "/storage/v1/object/sign/" + bucket + "/" + path, token := token,
            body := Some(JObj(map["expiresIn" := JInt(expiresIn)])))
  }

  /** `create_signed_urls`. */
  function CreateSignedUrls(bucket: string, paths: seq<string>, expiresIn: int := 60, token: Option<string> := None): (req: Request)
    ensures req.verb == "POST" && req.endpoint == "/storage/v1/object/sign/" + bucket
    ensures req.body == Some(JObj(map["expiresIn" := JInt(expiresIn), "paths" := StrArray(paths)]))
    ensures !req.isAdmin && req.token == token && Plain(req)
  {
    Request("POST", "/storage/v1/object/sign/" + bucket, token := token,
            body := Some(JObj(map["expiresIn" := JInt(expiresIn), "paths" := StrArray(paths)])))
  }

  /** `create_signed_upload_url`. */
  function CreateSignedUploadUrl(bucket: string, path: string, token: Option<string> := None): (req: Request)
    ensures req.verb == "POST" && req.endpoint == "/storage/v1/object/upload/sign/" + bucket + "/" + path
    ensures req.body.None? && !req.isAdmin && req.token == token && Plain(req)
  {
    Request("POST", "/storage/v1/object/upload/sign/" + bucket + "/" + path, token := token)
  }

  // ------------------------------------------------------------- public URLs

  function PublicPrefix(baseUrl: string, bucket: string): string {
    baseUrl + "/storage/v1/object/public/" + bucket + "/"
  }

  /** The public URL of an object. */
  function PublicUrl(baseUrl: string, bucket: string, path: string): (url: string)
    ensures |url| == |PublicPrefix(baseUrl, bucket)| + |path|
    ensures url[..|PublicPrefix(baseUrl, bucket)|] == PublicPrefix(baseUrl, bucket)
  {
    PublicPrefix(baseUrl, bucket) + path
  }

  /** The object path a public URL names, read back. */
  function PublicPath(baseUrl: string, bucket: string, url: string): Option<string> {
    var prefix := PublicPrefix(baseUrl, bucket);
    if |prefix| <= |url| && url[..|prefix|] == prefix then Some(url[|prefix|..]) else None
  }

  /** Reading back the path of a public URL gives the path it was made from. */
  lemma PublicUrlRoundTrip(baseUrl: string, bucket: string, path: string)
    ensures PublicPath(baseUrl, bucket, PublicUrl(baseUrl, bucket, path)) == Some(path)
  {
    var prefix := PublicPrefix(baseUrl, bucket);
    assert (prefix + path)[|prefix|..] == path;
  }

  /** `get_public_url`: the bucket is looked up, but whatever the lookup gives (an error, a
      private bucket, a body that is not a dict) the public URL is returned. */
  method GetPublicUrl(cfg: Config, net: Wire -> Outcome, bucket: string, path: string,
                      token: Option<string> := None, isAdmin: bool := false) returns (url: string)
    ensures url == PublicUrl(cfg.baseUrl, bucket, path)
  {
    var lookup, sent := MakeRequest(cfg, net, GetBucket(bucket, token, isAdmin));
    url := cfg.baseUrl + "/storage/v1/object/public/" + bucket + "/" + path;
  }
}
