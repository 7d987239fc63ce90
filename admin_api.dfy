/**
  The admin service (`src/services/adminApi.js`): one operation per backend
  endpoint, each a single delegation to its own `request`, which differs from
  `ApiClient.request` in how it builds the Authorization header and in how it
  reads an error body.
*/
module AdminApi {
  import opened Js
  import opened Text
  import opened ApiConfig

  /** The endpoint and options one service operation hands to `request`. */
  datatype Call = Call(endpoint: string, options: RequestOptions)

  /** The method `fetch` uses: the one given, or GET when none is. */
  function EffectiveVerb(c: Call): string {
    c.options.verb.GetOr("GET")
  }

  /** The merged headers: Authorization is always sent, `'Bearer ' + (token || '')`. */
  function AdminHeaders(token: Option<string>, extra: Option<map<string, string>>): map<string, string> {
    var base := map["Content-Type" := "application/json", "Authorization" := "Bearer " + StringOr(token, "")];
    if extra.Some? then base + extra.value else base
  }

  /** The call `AdminApiService.request(endpoint, options)` makes; `baseUrl` is
      `API_BASE_URL`, computed by the same rule as `ApiConfig.BaseUrl`. */
  function AdminRequest(baseUrl: string, c: Call, token: Option<string>): (r: HttpRequest)
    ensures r.url == baseUrl + c.endpoint
    ensures r.config.verb == c.options.verb && r.config.body == c.options.body
    ensures c.options.headers.None? ==>
      && r.config.headers.Keys == {"Content-Type", "Authorization"}
      && r.config.headers["Content-Type"] == "application/json"
      && r.config.headers["Authorization"] == "Bearer " + (if HasToken(token) then token.value else "")
    ensures c.options.headers.Some? ==> r.config.headers == c.options.headers.value
  {
    HttpRequest(baseUrl + c.endpoint, Configure(AdminHeaders(token, c.options.headers), c.options))
  }

  /** Both request layers send the same Authorization header whenever a token is
      stored; without one only the admin service sends a (bare `Bearer `) header. */
  lemma AuthorizationHeaders(baseUrl: string, endpoint: string, token: Option<string>)
    ensures var admin := AdminRequest(baseUrl, Call(endpoint, NoOptions), token).config.headers;
      var client := ClientRequest(baseUrl, endpoint, NoOptions, token).config.headers;
      && (HasToken(token) ==> admin == client)
      && (!HasToken(token) ==> "Authorization" !in client && admin["Authorization"] == "Bearer ")
  {
  }

  /** A JSON array of strings. */
  function StrArray(xs: seq<string>): (r: Json)
    ensures r.JArr? && |r.items| == |xs|
    ensures forall i :: 0 <= i < |xs| ==> r.items[i] == JStr(xs[i])
  {
    JArr(seq(|xs|, i requires 0 <= i < |xs| => JStr(xs[i])))
  }

  /** No `$` in a path parameter: `String.replace` would read `$` patterns in it. */
  predicate DollarFree(s: string) {
    forall i :: 0 <= i < |s| ==> s[i] != '$'
  }

  /** `listRoles()`: a GET of the configured role-list path. */
  function ListRoles(): (c: Call)
    ensures c.endpoint == RbacListRoles && EffectiveVerb(c) == "GET"
    ensures c.options.body.None? && c.options.headers.None?
  {
    Call("/rbac/list_roles", NoOptions)
  }

  /** `setRoles(roleData)`: a POST of the data, as given, to the configured path. */
  function SetRoles(roleData: Json): (c: Call)
    ensures c.endpoint == RbacSetRoles && EffectiveVerb(c) == "POST"
    ensures c.options.body == Some(roleData) && c.options.headers.None?
  {
    Call("/rbac/set_roles", RequestOptions(Some("POST"), Some(roleData), None))
  }

  /** `listPermissions(module = null)`: the query is added only for a truthy module. */
  function ListPermissions(permModule: Option<string>): (c: Call)
    ensures RbacListPermissions <= c.endpoint && EffectiveVerb(c) == "GET"
    ensures c.options.body.None? && c.options.headers.None?
    ensures permModule.None? || permModule.value == "" ==> c.endpoint == RbacListPermissions
  {
    var query := if permModule.Some? && permModule.value != "" then "?module=" + permModule.value else "";
    Call("/rbac/list_permissions" + query, NoOptions)
  }

  /** `getRolePermissions(roleCode)`: a GET of the role's permission path. */
  function GetRolePermissions(roleCode: string): (c: Call)
    ensures DollarFree(roleCode) ==> c.endpoint == Substitute(RbacGetRolePermissions, [("role_code", roleCode)])
    ensures EffectiveVerb(c) == "GET" && c.options.body.None? && c.options.headers.None?
  {
    var c := Call("/rbac/roles/" + roleCode + "/permissions", NoOptions);
    if DollarFree(roleCode) then
      OnePlaceholder("/rbac/roles/", "role_code", "/permissions", roleCode, RbacGetRolePermissions); c
    else c
  }

  /** `setRolePermissions(roleCode, permCodes)`: a PUT of `{perm_codes}` to the same path. */
  function SetRolePermissions(roleCode: string, permCodes: seq<string>): (c: Call)
    ensures DollarFree(roleCode) ==> c.endpoint == Substitute(RbacSetRolePermissions, [("role_code", roleCode)])
    ensures EffectiveVerb(c) == "PUT" && c.options.headers.None?
    ensures c.options.body == Some(JObj(map["perm_codes" := StrArray(permCodes)]))
  {
    var c := Call("/rbac/roles/" + roleCode + "/permissions",
                  RequestOptions(Some("PUT"), Some(Object1("perm_codes", StrArray(permCodes))), None));
    if DollarFree(roleCode) then
      OnePlaceholder("/rbac/roles/", "role_code", "/permissions", roleCode, RbacSetRolePermissions); c
    else c
  }

  /** `getUserRoles(username)`: a GET of the user's role path. */
  function GetUserRoles(username: string): (c: Call)
    ensures DollarFree(username) ==> c.endpoint == Substitute(RbacGetUserRoles, [("username", username)])
    ensures EffectiveVerb(c) == "GET" && c.options.body.None? && c.options.headers.None?
  {
    var c := Call("/rbac/users/" + username + "/roles", NoOptions);
    if DollarFree(username) then
      OnePlaceholder("/rbac/users/", "username", "/roles", username, RbacGetUserRoles); c
    else c
  }

  /** `setUserRoles(username, roleCodes)`: a PUT of `{role_codes}` to the same path. */
  function SetUserRoles(username: string, roleCodes: seq<string>): (c: Call)
    ensures DollarFree(username) ==> c.endpoint == Substitute(RbacSetUserRoles, [("username", username)])
    ensures EffectiveVerb(c) == "PUT" && c.options.headers.None?
    ensures c.options.body == Some(JObj(map["role_codes" := StrArray(roleCodes)]))
  {
    var c := Call("/rbac/users/" + username + "/roles",
                  RequestOptions(Some("PUT"), Some(Object1("role_codes", StrArray(roleCodes))), None));
    if DollarFree(username) then
      OnePlaceholder("/rbac/users/", "username", "/roles", username, RbacSetUserRoles); c
    else c
  }

  /** `listKBs()`: a GET of the configured list path. */
  function ListKBs(): (c: Call)
    ensures c.endpoint == KbList && EffectiveVerb(c) == "GET"
    ensures c.options.body.None? && c.options.headers.None?
  {
    Call("/kb/list", NoOptions)
  }

  /** `createKB(kbData)`: a POST of the data, as given, to the configured create path. */
  function CreateKB(kbData: Json): (c: Call)
    ensures c.endpoint == KbCreate && EffectiveVerb(c) == "POST"
    ensures c.options.body == Some(kbData) && c.options.headers.None?
  {
    Call("/kb/create", RequestOptions(Some("POST"), Some(kbData), None))
  }

  /** `updateKB(kbId, kbData)`: a PUT of the data to the knowledge base's update path. */
  function UpdateKB(kbId: string, kbData: Json): (c: Call)
    ensures DollarFree(kbId) ==> c.endpoint == Substitute(KbUpdate, [("kb_id", kbId)])
    ensures EffectiveVerb(c) == "PUT" && c.options.body == Some(kbData) && c.options.headers.None?
  {
    var c := Call("/kb/" + kbId + "/update", RequestOptions(Some("PUT"), Some(kbData), None));
    if DollarFree(kbId) then OnePlaceholder("/kb/", "kb_id", "/update", kbId, KbUpdate); c
    else c
  }

  /** `deleteKB(kbId)`: a bodiless DELETE of the knowledge base's delete path. */
  function DeleteKB(kbId: string): (c: Call)
    ensures DollarFree(kbId) ==> c.endpoint == Substitute(KbDelete, [("kb_id", kbId)])
    ensures EffectiveVerb(c) == "DELETE" && c.options.body.None? && c.options.headers.None?
  {
    var c := Call("/kb/" + kbId + "/delete", RequestOptions(Some("DELETE"), None, None));
    if DollarFree(kbId) then OnePlaceholder("/kb/", "kb_id", "/delete", kbId, KbDelete); c
    else c
  }

  /** `getKBDetail(kbId)`: a GET of the knowledge base's detail path. */
  function GetKBDetail(kbId: string): (c: Call)
    ensures DollarFree(kbId) ==> c.endpoint == Substitute(KbDetail, [("kb_id", kbId)])
    ensures EffectiveVerb(c) == "GET" && c.options.body.None? && c.options.headers.None?
  {
    var c := Call("/kb/" + kbId + "/detail", NoOptions);
    if DollarFree(kbId) then OnePlaceholder("/kb/", "kb_id", "/detail", kbId, KbDetail); c
    else c
  }

  /** `getAdminStats()`: a GET of the configured statistics path. */
  function GetAdminStats(): (c: Call)
    ensures c.endpoint == AdminStats && EffectiveVerb(c) == "GET"
    ensures c.options.body.None? && c.options.headers.None?
  {
    Call("/admin/stats", NoOptions)
  }

  /** `?module=<m>` is appended exactly when the module is a non-empty string, verbatim. */
  lemma ListPermissionsQuery(permModule: Option<string>)
    ensures var c := ListPermissions(permModule);
      && EffectiveVerb(c) == "GET" && c.options.body.None?
      && (permModule.Some? && permModule.value != "" <==> c.endpoint != "/rbac/list_permissions")
      && (permModule.Some? && permModule.value != "" ==> c.endpoint == "/rbac/list_permissions?module=" + permModule.value)
  {
    var c := ListPermissions(permModule);
    if permModule.Some? && permModule.value != "" {
      assert |c.endpoint| > |"/rbac/list_permissions"|;
    }
  }

  /** Reading and writing a role's permissions use one path, by the default GET and by PUT;
      the write sends `{perm_codes}`. Likewise for a user's roles and `{role_codes}`. */
  lemma AssignmentCalls(roleCode: string, permCodes: seq<string>, username: string, roleCodes: seq<string>)
    ensures GetRolePermissions(roleCode).endpoint == SetRolePermissions(roleCode, permCodes).endpoint
    ensures EffectiveVerb(GetRolePermissions(roleCode)) == "GET"
    ensures EffectiveVerb(SetRolePermissions(roleCode, permCodes)) == "PUT"
    ensures SetRolePermissions(roleCode, permCodes).options.body == Some(JObj(map["perm_codes" := StrArray(permCodes)]))
    ensures GetUserRoles(username).endpoint == SetUserRoles(username, roleCodes).endpoint
    ensures EffectiveVerb(GetUserRoles(username)) == "GET"
    ensures EffectiveVerb(SetUserRoles(username, roleCodes)) == "PUT"
    ensures SetUserRoles(username, roleCodes).options.body == Some(JObj(map["role_codes" := StrArray(roleCodes)]))
  {
  }

  /** The knowledge-base item operations share the `/kb/<id>/` prefix and differ in
      the last segment and the method: update by PUT, delete by DELETE, detail by GET. */
  lemma KbItemCalls(kbId: string, kbData: Json)
    ensures UpdateKB(kbId, kbData).endpoint == "/kb/" + kbId + "/update" && EffectiveVerb(UpdateKB(kbId, kbData)) == "PUT"
    ensures DeleteKB(kbId).endpoint == "/kb/" + kbId + "/delete" && EffectiveVerb(DeleteKB(kbId)) == "DELETE"
    ensures GetKBDetail(kbId).endpoint == "/kb/" + kbId + "/detail" && EffectiveVerb(GetKBDetail(kbId)) == "GET"
    ensures UpdateKB(kbId, kbData).options.body == Some(kbData) && DeleteKB(kbId).options.body.None?
  {
  }

  /** For a role code without `$`, the service's interpolated paths are the
      `API_CONFIG` templates with the code substituted by `buildApiUrl`'s rule. */
  lemma RoleCallsMatchTemplates(roleCode: string)
    requires forall i :: 0 <= i < |roleCode| ==> roleCode[i] != '$'
    ensures GetRolePermissions(roleCode).endpoint == Substitute(RbacGetRolePermissions, [("role_code", roleCode)])
    ensures SetRolePermissions(roleCode, []).endpoint == Substitute(RbacSetRolePermissions, [("role_code", roleCode)])
  {
    OnePlaceholder("/rbac/roles/", "role_code", "/permissions", roleCode, RbacGetRolePermissions);
  }

  /** The same for a username and the user-role templates. */
  lemma UserCallsMatchTemplates(username: string)
    requires forall i :: 0 <= i < |username| ==> username[i] != '$'
    ensures GetUserRoles(username).endpoint == Substitute(RbacGetUserRoles, [("username", username)])
    ensures SetUserRoles(username, []).endpoint == Substitute(RbacSetUserRoles, [("username", username)])
  {
    OnePlaceholder("/rbac/users/", "username", "/roles", username, RbacGetUserRoles);
  }

  /** The same for a knowledge-base id and the update template. */
  lemma UpdateKbMatchesTemplate(kbId: string)
    requires forall i :: 0 <= i < |kbId| ==> kbId[i] != '$'
    ensures UpdateKB(kbId, JNull).endpoint == Substitute(KbUpdate, [("kb_id", kbId)])
  {
    OnePlaceholder("/kb/", "kb_id", "/update", kbId, KbUpdate);
  }

  /** The same for the delete template. */
  lemma DeleteKbMatchesTemplate(kbId: string)
    requires forall i :: 0 <= i < |kbId| ==> kbId[i] != '$'
    ensures DeleteKB(kbId).endpoint == Substitute(KbDelete, [("kb_id", kbId)])
  {
    OnePlaceholder("/kb/", "kb_id", "/delete", kbId, KbDelete);
  }

  /** The same for the detail template. */
  lemma KbDetailMatchesTemplate(kbId: string)
    requires forall i :: 0 <= i < |kbId| ==> kbId[i] != '$'
    ensures GetKBDetail(kbId).endpoint == Substitute(KbDetail, [("kb_id", kbId)])
  {
    OnePlaceholder("/kb/", "kb_id", "/detail", kbId, KbDetail);
  }

  lemma OnePlaceholder(prefix: string, key: string, suffix: string, value: string, template: string)
    requires template == prefix + Placeholder(key) + suffix
    requires forall i :: 0 <= i < |prefix| ==> prefix[i] != '{'
    requires forall i :: 0 <= i < |value| ==> value[i] != '$'
    ensures Substitute(template, [(key, value)]) == prefix + value + suffix
  {
    SubstituteSingle(prefix, key, suffix, value);
  }

  /** The outcome of `AdminApiService.request`: as `ApiClient.request`, except that
      an error body that is not JSON makes `response.json()` reject, and that
      rejection is what the caller sees. */
  function AdminOutcome(resp: Option<HttpResponse>): (r: Result<Json, ApiError>)
    ensures resp.Some? && !IsOk(resp.value.status) && resp.value.body.Unparseable? ==> r == Failure(InvalidJson)
    ensures resp.None? || resp.value.body.Parsed? || IsOk(resp.value.status) ==> r == ClientOutcome(resp)
    ensures resp.Some? && !IsOk(resp.value.status) && resp.value.body.Parsed? ==>
      r == (if resp.value.body.value.JNull? then Failure(NullErrorBody)
            else Failure(RequestFailed(ErrorMessage(resp.value.body.value, GenericFailure))))
  {
    if resp.Some? && !IsOk(resp.value.status) && resp.value.body.Unparseable? then Failure(InvalidJson)
    else ClientOutcome(resp)
  }
}
