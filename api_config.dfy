/**
  The generic request layer (`src/config/api.js`): the base address, the
  endpoint templates, `buildApiUrl`, and the way `ApiClient.request` builds a
  `fetch` call and maps its outcome. The network, `localStorage` and JSON
  parsing are inputs: the stored token is an optional string, and a response
  is a status with a body that either parsed or did not.
*/
module ApiConfig {
  import opened Js
  import opened Text

  const DefaultBaseUrl: string := "http://localhost:8000"

  /** `import.meta.env.VITE_API_BASE_URL || 'http://localhost:8000'`. */
  function BaseUrl(env: Option<string>): (r: string)
    ensures env.Some? && env.value != "" ==> r == env.value
    ensures env.None? || env.value == "" ==> r == DefaultBaseUrl
  {
    StringOr(env, DefaultBaseUrl)
  }

  // Endpoint templates of API_CONFIG.
  const AuthLogin: string := "/auth/login"
  const AuthRegister: string := "/auth/register"
  const AuthLogout: string := "/auth/logout"
  const AuthRefresh: string := "/auth/refresh"
  const ChatSendMessage: string := "/chat/send"
  const ChatGetHistory: string := "/chat/history"
  const ChatGetConversations: string := "/chat/conversations"
  const AdminStats: string := "/admin/stats"
  const RbacListRoles: string := "/rbac/list_roles"
  const RbacSetRoles: string := "/rbac/set_roles"
  const RbacListPermissions: string := "/rbac/list_permissions"
  const RbacGetRolePermissions: string := "/rbac/roles/{role_code}/permissions"
  const RbacSetRolePermissions: string := "/rbac/roles/{role_code}/permissions"
  const RbacGetUserRoles: string := "/rbac/users/{username}/roles"
  const RbacSetUserRoles: string := "/rbac/users/{username}/roles"
  const KbList: string := "/kb/list"
  const KbCreate: string := "/kb/create"
  const KbUpdate: string := "/kb/{kb_id}/update"
  const KbDelete: string := "/kb/{kb_id}/delete"
  const KbDetail: string := "/kb/{kb_id}/detail"

  /** The text `{key}` that `buildApiUrl` looks for. */
  function Placeholder(key: string): string {
    "{" + key + "}"
  }

  /** The template after each `(key, value)` of `params`, in order, has replaced the
      first `{key}` then present. */
  function Substitute(template: string, params: seq<(string, string)>): string
    decreases |params|
  {
    if params == [] then template
    else Substitute(ReplaceFirst(template, Placeholder(params[0].0), params[0].1), params[1..])
  }

  /** `buildApiUrl(urlTemplate, params)`: the keys of `params` are given in the order
      `Object.keys` lists them. */
  method BuildApiUrl(baseUrl: string, template: string, params: seq<(string, string)>) returns (url: string)
    ensures url == baseUrl + Substitute(template, params)
    ensures params == [] ==> url == baseUrl + template
  {
    var u := template;
    var i := 0;
    while i < |params|
      invariant 0 <= i <= |params|
      invariant Substitute(u, params[i..]) == Substitute(template, params)
    {
      assert params[i..][1..] == params[i + 1..];
      u := ReplaceFirst(u, Placeholder(params[i].0), params[i].1);
      i := i + 1;
    }
    url := baseUrl + u;
  }

  /** A template in which no key's placeholder occurs comes back unchanged. */
  lemma {:induction false} SubstituteWithoutPlaceholders(template: string, params: seq<(string, string)>)
    requires forall k :: 0 <= k < |params| ==> !Includes(template, Placeholder(params[k].0))
    ensures Substitute(template, params) == template
    decreases |params|
  {
    if params != [] {
      ReplaceFirstSpec(template, Placeholder(params[0].0), params[0].1);
      SubstituteWithoutPlaceholders(template, params[1..]);
    }
  }

  /** One key whose placeholder occurs: the first copy is replaced by the value and
      the rest of the template, later copies included, is kept. */
  lemma SubstituteOne(template: string, key: string, value: string)
    requires Includes(template, Placeholder(key))
    requires forall i :: 0 <= i < |value| ==> value[i] != '$'
    ensures var k := IndexOf(template, Placeholder(key));
      0 <= k && k + |Placeholder(key)| <= |template| &&
      Substitute(template, [(key, value)]) ==
        template[..k] + value + template[k + |Placeholder(key)|..]
  {
    ReplaceFirstSpec(template, Placeholder(key), value);
  }

  /** A single path parameter substituted into a template whose text before the
      placeholder has no `{`: the value takes the placeholder's place verbatim. */
  lemma SubstituteSingle(prefix: string, key: string, suffix: string, value: string)
    requires forall i :: 0 <= i < |prefix| ==> prefix[i] != '{'
    requires forall i :: 0 <= i < |value| ==> value[i] != '$'
    ensures Substitute(prefix + Placeholder(key) + suffix, [(key, value)]) == prefix + value + suffix
  {
    var t := prefix + Placeholder(key) + suffix;
    var p := Placeholder(key);
    assert OccursAt(t, p, |prefix|);
    forall j | 0 <= j < |prefix| ensures !OccursAt(t, p, j) {
      assert t[j] == prefix[j];
      assert t[j..j + |p|][0] == t[j];
      assert p[0] == '{';
    }
    var k := IndexOf(t, p);
    assert k == |prefix|;
    ReplaceFirstSpec(t, p, value);
    assert t[..k] == prefix;
    assert t[k + |p|..] == suffix;
  }

  /** A repeated placeholder keeps its second copy: only the first `{key}` is replaced. */
  lemma RepeatedPlaceholderKeepsLaterCopy(dir: string, key: string, value: string)
    requires forall i :: 0 <= i < |dir| ==> dir[i] != '{'
    requires forall i :: 0 <= i < |value| ==> value[i] != '$'
    ensures Substitute(dir + Placeholder(key) + ("/" + Placeholder(key)), [(key, value)])
         == dir + value + ("/" + Placeholder(key))
  {
    SubstituteSingle(dir, key, "/" + Placeholder(key), value);
  }

  // ---- ApiClient.request ----

  /** The optional parts of the `options` argument of `request`. */
  datatype RequestOptions = RequestOptions(
    verb: Option<string>,
    body: Option<Json>,      // the value passed to JSON.stringify
    headers: Option<map<string, string>>)

  const NoOptions: RequestOptions := RequestOptions(None, None, None)

  /** The `init` object handed to `fetch`. */
  datatype FetchConfig = FetchConfig(verb: Option<string>, body: Option<Json>, headers: map<string, string>)

  datatype HttpRequest = HttpRequest(url: string, config: FetchConfig)

  /** A non-empty stored token, which `token && {...}` treats as present. */
  predicate HasToken(token: Option<string>) {
    token.Some? && token.value != ""
  }

  /** The merged header object `{ 'Content-Type': ..., ...(token && {Authorization}), ...options.headers }`. */
  function ClientHeaders(token: Option<string>, extra: Option<map<string, string>>): map<string, string> {
    var base := map["Content-Type" := "application/json"];
    var withAuth := if HasToken(token) then base["Authorization" := "Bearer " + token.value] else base;
    if extra.Some? then withAuth + extra.value else withAuth
  }

  /** `{ headers, ...options }`: a later `headers` key in `options` replaces the merged object. */
  function Configure(merged: map<string, string>, options: RequestOptions): FetchConfig {
    FetchConfig(options.verb, options.body, if options.headers.Some? then options.headers.value else merged)
  }

  /** The call `ApiClient.request(endpoint, options)` makes. */
  function ClientRequest(baseUrl: string, endpoint: string, options: RequestOptions, token: Option<string>): (r: HttpRequest)
    ensures r.url == baseUrl + endpoint
    ensures r.config.verb == options.verb && r.config.body == options.body
    ensures options.headers.None? ==>
      && r.config.headers.Keys == (if HasToken(token) then {"Content-Type", "Authorization"} else {"Content-Type"})
      && r.config.headers["Content-Type"] == "application/json"
      && (HasToken(token) ==> r.config.headers["Authorization"] == "Bearer " + token.value)
    ensures options.headers.Some? ==> r.config.headers == options.headers.value
  {
    HttpRequest(baseUrl + endpoint, Configure(ClientHeaders(token, options.headers), options))
  }

  /** `ApiClient.get(endpoint)`. */
  function GetRequest(baseUrl: string, endpoint: string, token: Option<string>): HttpRequest {
    ClientRequest(baseUrl, endpoint, RequestOptions(Some("GET"), None, None), token)
  }

  /** `ApiClient.post(endpoint, data)`. */
  function PostRequest(baseUrl: string, endpoint: string, data: Json, token: Option<string>): HttpRequest {
    ClientRequest(baseUrl, endpoint, RequestOptions(Some("POST"), Some(data), None), token)
  }

  /** `ApiClient.put(endpoint, data)`. */
  function PutRequest(baseUrl: string, endpoint: string, data: Json, token: Option<string>): HttpRequest {
    ClientRequest(baseUrl, endpoint, RequestOptions(Some("PUT"), Some(data), None), token)
  }

  /** `ApiClient.delete(endpoint)`. */
  function DeleteRequest(baseUrl: string, endpoint: string, token: Option<string>): HttpRequest {
    ClientRequest(baseUrl, endpoint, RequestOptions(Some("DELETE"), None, None), token)
  }

  /** The convenience wrappers fix the method, carry a body exactly for POST and
      PUT, and never pass headers, so every one of them sends the default headers. */
  lemma WrapperRequests(baseUrl: string, endpoint: string, data: Json, token: Option<string>)
    ensures GetRequest(baseUrl, endpoint, token) ==
      HttpRequest(baseUrl + endpoint, FetchConfig(Some("GET"), None, ClientHeaders(token, None)))
    ensures DeleteRequest(baseUrl, endpoint, token) ==
      HttpRequest(baseUrl + endpoint, FetchConfig(Some("DELETE"), None, ClientHeaders(token, None)))
    ensures PostRequest(baseUrl, endpoint, data, token) ==
      HttpRequest(baseUrl + endpoint, FetchConfig(Some("POST"), Some(data), ClientHeaders(token, None)))
    ensures PutRequest(baseUrl, endpoint, data, token) ==
      HttpRequest(baseUrl + endpoint, FetchConfig(Some("PUT"), Some(data), ClientHeaders(token, None)))
  {
  }

  // ---- outcomes ----

  datatype ResponseBody = Unparseable | Parsed(value: Json)

  datatype HttpResponse = HttpResponse(status: int, body: ResponseBody)

  /** What a failed call throws. */
  datatype ApiError =
    | NetworkError            // fetch itself rejected
    | RequestFailed(message: string)
    | InvalidJson             // response.json() rejected and nothing caught it
    | NullErrorBody           // reading `.detail` of a `null` error body threw

  const GenericFailure: string := "请求失败"

  /** `response.ok`. */
  predicate IsOk(status: int) {
    200 <= status <= 299
  }

  /** The `detail` property of a decoded error body; `undefined` when it has none. */
  function DetailOf(v: Json): Option<Json>
    requires !v.JNull?
  {
    if v.JObj? && "detail" in v.fields then Some(v.fields["detail"]) else None
  }

  /** The message of `new Error(errorData.detail || fallback)` for a non-null
      error body: a truthy `detail` converted by `String`, else the fallback. */
  function ErrorMessage(v: Json, fallback: string): (m: string)
    requires !v.JNull?
    ensures DetailOf(v).Some? && Truthy(DetailOf(v).value) ==> m == ToJsString(DetailOf(v).value)
    ensures DetailOf(v).None? || !Truthy(DetailOf(v).value) ==> m == fallback
    ensures v.JObj? && "detail" in v.fields && v.fields["detail"].JStr? && v.fields["detail"].s != "" ==>
      m == v.fields["detail"].s
  {
    var d := DetailOf(v);
    if d.Some? && Truthy(d.value) then ToJsString(d.value) else fallback
  }

  /** The outcome of `ApiClient.request` for the response `fetch` produced
      (`None` when fetch rejected). An unreadable error body is replaced by
      `{ detail: '请求失败' }`. */
  function ClientOutcome(resp: Option<HttpResponse>): (r: Result<Json, ApiError>)
    ensures resp.None? ==> r == Failure(NetworkError)
    ensures r.Success? <==> resp.Some? && IsOk(resp.value.status) && resp.value.body.Parsed?
    ensures r.Success? ==> r.value == resp.value.body.value
    ensures resp.Some? && !IsOk(resp.value.status) && resp.value.body.Unparseable? ==>
      r == Failure(RequestFailed(GenericFailure))
    ensures resp.Some? && IsOk(resp.value.status) && resp.value.body.Unparseable? ==> r == Failure(InvalidJson)
    ensures resp.Some? && !IsOk(resp.value.status) && resp.value.body.Parsed? ==>
      r == (if resp.value.body.value.JNull? then Failure(NullErrorBody)
            else Failure(RequestFailed(ErrorMessage(resp.value.body.value, GenericFailure))))
  {
    if resp.None? then Failure(NetworkError)
    else if IsOk(resp.value.status) then
      match resp.value.body
      case Parsed(v) => Success(v)
      case Unparseable => Failure(InvalidJson)
    else
      match resp.value.body
      case Unparseable => Failure(RequestFailed(ErrorMessage(Object1("detail", JStr(GenericFailure)), GenericFailure)))
      case Parsed(v) => if v.JNull? then Failure(NullErrorBody) else Failure(RequestFailed(ErrorMessage(v, GenericFailure)))
  }
}
