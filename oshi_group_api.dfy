/**
 * The request builders of frontend/src/api/oshiGroupApi.ts. Each one describes
 * the `apiRequest` call it delegates: the path, the query parameters as an
 * ordered list (percent-encoding by `URLSearchParams` is left abstract), and
 * the request options.
 */
module OshiGroupApi {
  import opened Wrappers
  import opened ApiTypes
  import opened ApiClient

  const ListGroupPath := "/api/oshi-groups/list-group"
  const ListCompanyPath := "/api/oshi-groups/list-company"
  const CreatePath := "/api/oshi-groups/create"
  const UpdatePath := "/api/oshi-groups/update"

  /** The JSON payloads these calls send. */
  datatype Payload = CreatePayload(create: CreateOshiGroupRequest) | UpdatePayload(update: UpdateOshiGroupRequest)

  /** A query string's parameters, in order. */
  type Query = seq<(string, string)>

  datatype ApiCall = ApiCall(path: string, query: Option<Query>, options: RequestOptions<Payload>)

  /** `String(b)` for a boolean. */
  function BoolString(b: bool): string {
    if b then "true" else "false"
  }

  /** The options a search passes: none, so the default method (GET) and the bearer header apply. */
  const SearchOptions: RequestOptions<Payload> := RequestOptions(None, map[], None, None, false)

  function PostJson(payload: Payload): RequestOptions<Payload> {
    RequestOptions(Some("POST"), map[], None, Some(payload), false)
  }

  function ListOshiGroupsByGroupName(full: bool, fuzzy: bool, groupName: string): (c: ApiCall)
    ensures c.path == ListGroupPath && c.options == SearchOptions
    ensures c.query.Some? && |c.query.value| == 3
    ensures c.query.value[0] == ("full", BoolString(full))
    ensures c.query.value[1] == ("fuzzy", BoolString(fuzzy))
    ensures c.query.value[2] == ("groupName", groupName)
  {
    // `groupName || ''` is the identity on strings
    ApiCall(ListGroupPath, Some([("full", BoolString(full)), ("fuzzy", BoolString(fuzzy)), ("groupName", groupName)]), SearchOptions)
  }

  function ListOshiGroupsByCompany(company: string): (c: ApiCall)
    ensures c.path == ListCompanyPath && c.options == SearchOptions
    ensures c.query == Some([("company", company)])
  {
    ApiCall(ListCompanyPath, Some([("company", company)]), SearchOptions)
  }

  function CreateOshiGroup(request: CreateOshiGroupRequest): (c: ApiCall)
    ensures c.path == CreatePath && c.query == None
    ensures c.options.httpMethod == Some("POST") && !c.options.skipAuth
    ensures c.options.json == Some(CreatePayload(request))
    ensures c.options.headers == map[] && c.options.body == None
  {
    ApiCall(CreatePath, None, PostJson(CreatePayload(request)))
  }

  function UpdateOshiGroup(request: UpdateOshiGroupRequest): (c: ApiCall)
    ensures c.path == UpdatePath && c.query == None
    ensures c.options.httpMethod == Some("POST") && !c.options.skipAuth
    ensures c.options.json == Some(UpdatePayload(request))
    ensures c.options.headers == map[] && c.options.body == None
  {
    ApiCall(UpdatePath, None, PostJson(UpdatePayload(request)))
  }

  // ---------------------------------------------------------------- reading a call back

  function ParseBool(s: string): (b: Option<bool>)
    ensures b.Some? <==> s == "true" || s == "false"
  {
    if s == "true" then Some(true) else if s == "false" then Some(false) else None
  }

  /** Reads a group-name search query back into its three arguments (a read-back helper, not part of the client). */
  function ReadGroupNameQuery(q: Query): Option<(bool, bool, string)> {
    if |q| == 3 && q[0].0 == "full" && q[1].0 == "fuzzy" && q[2].0 == "groupName" &&
       ParseBool(q[0].1).Some? && ParseBool(q[1].1).Some?
    then Some((ParseBool(q[0].1).value, ParseBool(q[1].1).value, q[2].1))
    else None
  }

  lemma BoolStringRoundTrip(b: bool)
    ensures ParseBool(BoolString(b)) == Some(b)
  {
  }

  /** The group-name query carries its three arguments so that they can be read back exactly. */
  lemma GroupNameQueryRoundTrip(full: bool, fuzzy: bool, groupName: string)
    ensures ReadGroupNameQuery(ListOshiGroupsByGroupName(full, fuzzy, groupName).query.value) == Some((full, fuzzy, groupName))
  {
    BoolStringRoundTrip(full);
    BoolStringRoundTrip(fuzzy);
  }

  /** The path handed to `apiRequest`: the query, when there is one, follows a "?". */
  function RequestPath(c: ApiCall, encode: Query -> string): (r: string)
    ensures c.path <= r
    ensures c.query.None? ==> r == c.path
    ensures c.query.Some? ==> |r| > |c.path| && r[|c.path|] == '?' && r[|c.path| + 1..] == encode(c.query.value)
  {
    match c.query
    case None => c.path
    case Some(q) => c.path + "?" + encode(q)
  }

  /** Headers sent for a call when the store holds `token`. */
  function CallHeaders(c: ApiCall, token: Option<string>): map<string, string> {
    RequestHeaders(c.options.headers, c.options.json.Some?, c.options.skipAuth, token)
  }

  predicate CarriesBearer(c: ApiCall, token: string) {
    var h := CallHeaders(c, Some(token));
    AuthorizationHeader in h && h[AuthorizationHeader] == "Bearer " + token
  }

  /** No builder sets `skipAuth`, so each call carries the bearer header whenever a token is stored. */
  lemma BuildersCarryBearer(full: bool, fuzzy: bool, groupName: string, company: string,
                            create: CreateOshiGroupRequest, update: UpdateOshiGroupRequest, token: string)
    requires token != ""
    ensures CarriesBearer(ListOshiGroupsByGroupName(full, fuzzy, groupName), token)
    ensures CarriesBearer(ListOshiGroupsByCompany(company), token)
    ensures CarriesBearer(CreateOshiGroup(create), token)
    ensures CarriesBearer(UpdateOshiGroup(update), token)
  {
  }

  /** Create and update send their request, serialised, as a JSON body. */
  lemma WritesSendJson(create: CreateOshiGroupRequest, update: UpdateOshiGroupRequest, token: Option<string>)
    ensures SelectBody(CreateOshiGroup(create).options.json, CreateOshiGroup(create).options.body)
            == Some(Serialized(CreatePayload(create)))
    ensures SelectBody(UpdateOshiGroup(update).options.json, UpdateOshiGroup(update).options.body)
            == Some(Serialized(UpdatePayload(update)))
    ensures CallHeaders(CreateOshiGroup(create), token)[ContentTypeHeader] == JsonMediaType
    ensures CallHeaders(UpdateOshiGroup(update), token)[ContentTypeHeader] == JsonMediaType
  {
  }

  /** Every path the builders produce is relative, so it is resolved against the base URL. */
  lemma BuilderUrlsUseBaseUrl(c: ApiCall, encode: Query -> string)
    requires c.path in {ListGroupPath, ListCompanyPath, CreatePath, UpdatePath}
    ensures ResolveUrl(RequestPath(c, encode)) == ApiBaseUrl + RequestPath(c, encode)
  {
    assert RequestPath(c, encode)[0] == '/';
  }
}
