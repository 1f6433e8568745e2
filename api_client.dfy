/**
 * The fetch wrapper of frontend/src/lib/apiClient.ts: the token store, the
 * headers, URL and body of an outgoing request, the normalisation of error
 * responses into `ApiError`, and the value an answered request resolves to.
 *
 * `fetch` itself is not modelled: what it answers is an input (`FetchOutcome`),
 * and the calls a request makes are recorded in a `Network` log.
 */
module ApiClient {
  import opened Wrappers
  import opened ApiTypes

  /** The default of `API_BASE_URL`; the build-time override is configuration. */
  const ApiBaseUrl := "http://localhost:8080"
  const AuthTokenKey := "oshikatsu_token"

  const ContentTypeHeader := "content-type"
  const AuthorizationHeader := "authorization"
  const JsonMediaType := "application/json"

  const NetworkErrorMessage := "ネットワークエラーが発生しました"
  const CommunicationErrorMessage := "通信エラーが発生しました"
  const GenericErrorMessage := "エラーが発生しました"

  // ---------------------------------------------------------------- token store

  /**
   * The browser's local storage, reduced to the entry under `AuthTokenKey`.
   * Every storage access may raise (storage disabled, quota exceeded); whether
   * it does is the `raises` argument. The store catches every such error.
   */
  class TokenStore {
    var item: Option<string>

    constructor (initial: Option<string>)
      ensures item == initial
    {
      item := initial;
    }

    /** `getStoredToken`: the stored value, or null when the read raises. */
    method GetStoredToken(raises: bool) returns (token: Option<string>)
      ensures token == if raises then None else item
    {
      if raises {
        token := None;
      } else {
        token := item;
      }
    }

    /** `setStoredToken`: a failed write is logged and leaves the entry as it was. */
    method SetStoredToken(token: string, raises: bool)
      modifies this
      ensures item == if raises then old(item) else Some(token)
    {
      if !raises {
        item := Some(token);
      }
    }

    /** `clearStoredToken`: a failed removal is ignored. */
    method ClearStoredToken(raises: bool)
      modifies this
      ensures item == if raises then old(item) else None
    {
      if !raises {
        item := None;
      }
    }
  }

  /** A stored token is read back until it is cleared. */
  method TokenLifecycle(store: TokenStore, token: string) returns (afterSet: Option<string>, afterClear: Option<string>)
    modifies store
    ensures afterSet == Some(token) && afterClear == None && store.item == None
  {
    store.SetStoredToken(token, false);
    afterSet := store.GetStoredToken(false);
    store.ClearStoredToken(false);
    afterClear := store.GetStoredToken(false);
  }

  // ---------------------------------------------------------------- headers

  function LowerChar(c: char): (d: char)
    ensures 'A' <= c <= 'Z' ==> 'a' <= d <= 'z' && d as int - c as int == 'a' as int - 'A' as int
    ensures !('A' <= c <= 'Z') ==> d == c
  {
    if 'A' <= c <= 'Z' then (c as int - 'A' as int + 'a' as int) as char else c
  }

  /** Header names are compared after ASCII lower-casing, as the Fetch standard's `Headers` does. */
  function Lower(s: string): (r: string)
    ensures |r| == |s| && forall i :: 0 <= i < |s| ==> r[i] == LowerChar(s[i])
  {
    seq(|s|, i requires 0 <= i < |s| => LowerChar(s[i]))
  }

  lemma StandardHeaderNames()
    ensures Lower("Content-Type") == ContentTypeHeader
    ensures Lower("Authorization") == AuthorizationHeader
  {
    assert Lower("Content-Type") == "content-type";
    assert Lower("Authorization") == "authorization";
  }

  /** A `Headers` object: values keyed by lower-cased name. */
  class Headers {
    var fields: map<string, string>

    /** `new Headers(init)`, for initial headers whose names are already lower-cased. */
    constructor (init: map<string, string>)
      ensures fields == init
    {
      fields := init;
    }

    /** `headers.set(name, value)` replaces any value of that name. */
    method Set(name: string, value: string)
      modifies this
      ensures fields == old(fields)[Lower(name) := value]
    {
      fields := fields[Lower(name) := value];
    }
  }

  /** Whether the request carries a bearer credential: auth not skipped and a non-empty token read. */
  predicate SendsBearer(skipAuth: bool, token: Option<string>) {
    !skipAuth && token.Some? && token.value != ""
  }

  /**
   * The headers `apiRequest` sends, given the caller's headers, whether a JSON
   * payload is supplied, `skipAuth`, and what the token store answered.
   */
  function RequestHeaders(initial: map<string, string>, hasJson: bool, skipAuth: bool, token: Option<string>): (r: map<string, string>)
    ensures hasJson ==> ContentTypeHeader in r && r[ContentTypeHeader] == JsonMediaType
    ensures !hasJson ==> (ContentTypeHeader in r <==> ContentTypeHeader in initial)
    ensures !hasJson && ContentTypeHeader in initial ==> r[ContentTypeHeader] == initial[ContentTypeHeader]
    ensures SendsBearer(skipAuth, token) ==>
      AuthorizationHeader in r && r[AuthorizationHeader] == "Bearer " + token.value
    ensures !SendsBearer(skipAuth, token) ==> (AuthorizationHeader in r <==> AuthorizationHeader in initial)
    ensures !SendsBearer(skipAuth, token) && AuthorizationHeader in initial ==>
      r[AuthorizationHeader] == initial[AuthorizationHeader]
    ensures forall name :: name != ContentTypeHeader && name != AuthorizationHeader ==>
      (name in r <==> name in initial) && (name in r ==> r[name] == initial[name])
  {
    var withType := if hasJson then initial[ContentTypeHeader := JsonMediaType] else initial;
    if SendsBearer(skipAuth, token) then withType[AuthorizationHeader := "Bearer " + token.value] else withType
  }

  /**
   * Builds the headers in place, as `apiRequest` does: the caller's headers,
   * then Content-Type, then Authorization. The store is read only when auth is not skipped.
   */
  method BuildHeaders(initial: map<string, string>, hasJson: bool, skipAuth: bool,
                      store: TokenStore, storageRaises: bool) returns (headers: Headers)
    ensures fresh(headers)
    ensures headers.fields == RequestHeaders(initial, hasJson, skipAuth, if storageRaises then None else store.item)
  {
    StandardHeaderNames();
    headers := new Headers(initial);
    if hasJson {
      headers.Set("Content-Type", JsonMediaType);
    }
    if !skipAuth {
      var token := store.GetStoredToken(storageRaises);
      if token.Some? && token.value != "" {
        headers.Set("Authorization", "Bearer " + token.value);
      }
    }
  }

  // ---------------------------------------------------------------- URL and body

  /** A path starting with "http" is used verbatim; any other is appended to the base URL. */
  function ResolveUrl(path: string): (url: string)
    ensures "http" <= path ==> url == path
    ensures !("http" <= path) ==> url == ApiBaseUrl + path
    ensures "http" <= url
  {
    if "http" <= path then path else ApiBaseUrl + path
  }

  /** Resolving is idempotent: a resolved URL resolves to itself. */
  lemma ResolveUrlIdempotent(path: string)
    ensures ResolveUrl(ResolveUrl(path)) == ResolveUrl(path)
  {
  }

  /** What is sent as the request body: the serialisation of a JSON payload, or the raw body. */
  datatype SentBody<J> = Serialized(payload: J) | Raw(data: string)

  /** A supplied `json` overrides `options.body`; without one the raw body is sent as given. */
  function SelectBody<J>(json: Option<J>, body: Option<string>): (sent: Option<SentBody<J>>)
    ensures json.Some? ==> sent == Some(Serialized(json.value))
    ensures json.None? && body.Some? ==> sent == Some(Raw(body.value))
    ensures json.None? && body.None? ==> sent == None
  {
    match json
    case Some(payload) => Some(Serialized(payload))
    case None =>
      match body
      case Some(data) => Some(Raw(data))
      case None => None
  }

  /** A serialised body is always labelled as JSON, whatever the caller's headers said. */
  lemma SerializedBodyIsLabelledJson<J>(initial: map<string, string>, json: Option<J>, body: Option<string>,
                                        skipAuth: bool, token: Option<string>)
    requires SelectBody(json, body).Some? && SelectBody(json, body).value.Serialized?
    ensures ContentTypeHeader in RequestHeaders(initial, json.Some?, skipAuth, token)
    ensures RequestHeaders(initial, json.Some?, skipAuth, token)[ContentTypeHeader] == JsonMediaType
  {
  }

  // ---------------------------------------------------------------- responses

  /**
   * The parsed error body seen through the `ApiErrorResponse` cast: not an
   * object (null and the other primitives), or an object with each of the
   * keys `status`, `message`, `errors` present or absent.
   */
  datatype ErrorBody =
    | NotAnObject
    | ObjectBody(status: Option<int>, message: Option<string>, errors: Option<map<string, string>>)

  /** `response.json()` either rejects, or yields one value read through both casts the client applies. */
  datatype ResponseBody<T> = Unparsable | Json(asError: ErrorBody, asData: T)

  datatype HttpResponse<T> = HttpResponse(status: int, statusText: string, contentType: Option<string>, body: ResponseBody<T>) {
    /** `response.ok`: the status is in the range 200 to 299. */
    predicate Ok() {
      200 <= status <= 299
    }
  }

  /** What a `fetch` raised: an `Error` instance with its message, or some other value. */
  datatype Thrown = ErrorInstance(message: string) | NonError

  datatype FetchOutcome<T> = TransportFailure(thrown: Thrown) | Responded(response: HttpResponse<T>)

  /** The `ApiError` class: message, HTTP status (0 for a transport failure) and optional field errors. */
  datatype ApiError = ApiError(message: string, status: int, errors: Option<map<string, string>>)

  /** How a request settles: resolved with the body (None is `undefined`), or rejected. */
  datatype Failure = ApiFailure(error: ApiError) | OtherFailure
  datatype Outcome<T> = Resolved(value: Option<T>) | Rejected(failure: Failure)

  /** The body already has the `ApiErrorResponse` shape: an object with both `status` and `message`. */
  predicate HasErrorShape(body: ErrorBody) {
    body.ObjectBody? && body.status.Some? && body.message.Some?
  }

  /** `body?.message`: present only on an object that has the key. */
  function BodyMessage(body: ErrorBody): Option<string> {
    if body.ObjectBody? then body.message else None
  }

  /**
   * `parseErrorResponse` exactly as written. The last fallback is attached with
   * `??` to `statusText`, which is always a string, so it never applies.
   */
  function ParseErrorResponseAsWritten<T>(response: HttpResponse<T>): (r: ApiErrorResponse)
    ensures response.body.Json? && !HasErrorShape(response.body.asError) && BodyMessage(response.body.asError) == None ==>
      r.message == response.statusText
  {
    match response.body
    case Unparsable =>
      ApiErrorResponse(response.status,
        if response.statusText != "" then response.statusText else CommunicationErrorMessage, None)
    case Json(body, _) =>
      if HasErrorShape(body) then ApiErrorResponse(body.status.value, body.message.value, body.errors)
      else ApiErrorResponse(response.status, BodyMessage(body).GetOr(Some(response.statusText).GetOr(GenericErrorMessage)), None)
  }

  /** A JSON error body without a message and an empty status text (as every HTTP/2 response has) gives an empty message. */
  lemma AsWrittenEmptyMessage()
    ensures ParseErrorResponseAsWritten(HttpResponse(500, "", None, Json(ObjectBody(None, None, None), 0))).message == ""
  {
  }

  /**
   * `parseErrorResponse` with the evidently intended fallback: an empty status
   * text falls back to the generic message, as it already does for an unparsable body.
   */
  function ParseErrorResponse<T>(response: HttpResponse<T>): (r: ApiErrorResponse)
    // unparsable body: synthesised from the status line
    ensures response.body.Unparsable? ==>
      r == ApiErrorResponse(response.status,
             if response.statusText != "" then response.statusText else CommunicationErrorMessage, None)
    // a body that already has the error shape passes through unchanged, field errors included
    ensures response.body.Json? && HasErrorShape(response.body.asError) ==>
      var b := response.body.asError;
      r == ApiErrorResponse(b.status.value, b.message.value, b.errors)
    // any other body: the HTTP status, the body's message if any, no field errors
    ensures response.body.Json? && !HasErrorShape(response.body.asError) ==>
      r.status == response.status && r.errors == None &&
      (BodyMessage(response.body.asError).Some? ==> r.message == BodyMessage(response.body.asError).value)
    // the message is never empty unless the server itself sent an empty one
    ensures (response.body.Unparsable? || BodyMessage(response.body.asError) == None) ==> r.message != ""
    ensures response.body.Json? && BodyMessage(response.body.asError) == None ==>
      r.message == if response.statusText != "" then response.statusText else GenericErrorMessage
  {
    match response.body
    case Unparsable =>
      ApiErrorResponse(response.status,
        if response.statusText != "" then response.statusText else CommunicationErrorMessage, None)
    case Json(body, _) =>
      if HasErrorShape(body) then ApiErrorResponse(body.status.value, body.message.value, body.errors)
      else ApiErrorResponse(response.status,
        BodyMessage(body).GetOr(if response.statusText != "" then response.statusText else GenericErrorMessage), None)
  }

  /** The two versions differ only where the written fallback is dead. */
  lemma ParseErrorResponseCorrection<T>(response: HttpResponse<T>)
    ensures ParseErrorResponse(response) != ParseErrorResponseAsWritten(response) <==>
      response.body.Json? && !HasErrorShape(response.body.asError) &&
      BodyMessage(response.body.asError) == None && response.statusText == ""
  {
  }

  /** Contains(s, part): `s.includes(part)`. */
  function Contains(s: string, part: string): bool
    decreases |s|
  {
    part <= s || (s != [] && Contains(s[1..], part))
  }

  lemma {:induction false} ContainsInside(before: string, part: string, after: string)
    ensures Contains(before + part + after, part)
  {
    if before == [] {
      assert before + part + after == part + after;
    } else {
      assert (before + part + after)[1..] == before[1..] + part + after;
      ContainsInside(before[1..], part, after);
    }
  }

  /** `part` occurs in `s` at position k. */
  predicate OccursAt(s: string, part: string, k: int) {
    0 <= k && k + |part| <= |s| && s[k..k + |part|] == part
  }

  /** `Contains` finds only what does occur somewhere in the string. */
  lemma {:induction false} ContainsOnlyInside(s: string, part: string)
    requires Contains(s, part)
    ensures exists k :: OccursAt(s, part, k)
    decreases |s|
  {
    if part <= s {
      assert OccursAt(s, part, 0);
    } else {
      ContainsOnlyInside(s[1..], part);
      var k :| OccursAt(s[1..], part, k);
      assert s[k + 1..k + 1 + |part|] == s[1..][k..k + |part|];
      assert OccursAt(s, part, k + 1);
    }
  }

  /** `includes` holds exactly when the string occurs at some position. */
  lemma ContainsExactly(s: string, part: string)
    ensures Contains(s, part) <==> exists k :: OccursAt(s, part, k)
  {
    if Contains(s, part) {
      ContainsOnlyInside(s, part);
    }
    if k :| OccursAt(s, part, k) {
      assert s == s[..k] + part + s[k + |part|..];
      ContainsInside(s[..k], part, s[k + |part|..]);
    }
  }

  /** `contentType?.includes('application/json')`: a header is present and names the JSON media type somewhere. */
  predicate IsJsonContentType(contentType: Option<string>): (r: bool)
    ensures r <==> contentType.Some? && exists k :: OccursAt(contentType.value, JsonMediaType, k)
  {
    if contentType.None? then false
    else
      ContainsExactly(contentType.value, JsonMediaType);
      Contains(contentType.value, JsonMediaType)
  }

  /** The message of a transport failure: the `Error`'s own message, or the network fallback for any other thrown value. */
  function TransportMessage(thrown: Thrown): (m: string)
    ensures thrown.ErrorInstance? ==> m == thrown.message
    ensures thrown.NonError? ==> m == NetworkErrorMessage && m != ""
  {
    match thrown
    case ErrorInstance(message) => message
    case NonError => NetworkErrorMessage
  }

  /**
   * What `apiRequest`, as written, settles to once `fetch` has answered. Every
   * failure except a 2xx JSON body that does not parse is an `ApiError`.
   */
  function Settle<T>(fetched: FetchOutcome<T>): (r: Outcome<T>)
    ensures fetched.TransportFailure? ==>
      r == Rejected(ApiFailure(ApiError(TransportMessage(fetched.thrown), 0, None)))
    ensures fetched.Responded? && !fetched.response.Ok() ==>
      var parsed := ParseErrorResponseAsWritten(fetched.response);
      r == Rejected(ApiFailure(ApiError(parsed.message, parsed.status, parsed.errors)))
    ensures fetched.Responded? && fetched.response.Ok() ==>
      if !IsJsonContentType(fetched.response.contentType) then r == Resolved(None)
      else if fetched.response.body.Unparsable? then r == Rejected(OtherFailure)
      else r == Resolved(Some(fetched.response.body.asData))
    ensures r.Rejected? && r.failure.OtherFailure? ==>
      fetched.Responded? && fetched.response.Ok() && fetched.response.body.Unparsable?
  {
    match fetched
    case TransportFailure(thrown) => Rejected(ApiFailure(ApiError(TransportMessage(thrown), 0, None)))
    case Responded(response) =>
      if !response.Ok() then
        var parsed := ParseErrorResponseAsWritten(response);
        Rejected(ApiFailure(ApiError(parsed.message, parsed.status, parsed.errors)))
      else if IsJsonContentType(response.contentType) then
        match response.body
        case Unparsable => Rejected(OtherFailure)
        case Json(_, data) => Resolved(Some(data))
      else Resolved(None)
  }

  /** `Settle` with the corrected `parseErrorResponse`: only the error of a non-2xx answer can differ. */
  function SettleCorrected<T>(fetched: FetchOutcome<T>): (r: Outcome<T>)
    ensures fetched.Responded? && !fetched.response.Ok() ==>
      var parsed := ParseErrorResponse(fetched.response);
      r == Rejected(ApiFailure(ApiError(parsed.message, parsed.status, parsed.errors)))
    ensures !(fetched.Responded? && !fetched.response.Ok()) ==> r == Settle(fetched)
  {
    if fetched.Responded? && !fetched.response.Ok() then
      var parsed := ParseErrorResponse(fetched.response);
      Rejected(ApiFailure(ApiError(parsed.message, parsed.status, parsed.errors)))
    else Settle(fetched)
  }

  /** The corrected request rejects differently exactly where the written fallback is dead. */
  lemma SettleCorrection<T>(fetched: FetchOutcome<T>)
    ensures SettleCorrected(fetched) != Settle(fetched) <==>
      fetched.Responded? && !fetched.response.Ok() && fetched.response.body.Json? &&
      !HasErrorShape(fetched.response.body.asError) &&
      BodyMessage(fetched.response.body.asError) == None && fetched.response.statusText == ""
  {
    if fetched.Responded? {
      ParseErrorResponseCorrection(fetched.response);
    }
  }

  /** As written, a 500 with an empty status text and body `{}` rejects with an empty message. */
  lemma AsWrittenRequestEmptyMessage<T>(data: T)
    ensures Settle(Responded(HttpResponse(500, "", None, Json(ObjectBody(None, None, None), data))))
            == Rejected(ApiFailure(ApiError("", 500, None)))
    ensures SettleCorrected(Responded(HttpResponse(500, "", None, Json(ObjectBody(None, None, None), data))))
            == Rejected(ApiFailure(ApiError(GenericErrorMessage, 500, None)))
  {
  }

  /** A JSON media type with parameters (e.g. a charset) still gets its body returned. */
  lemma JsonWithParametersIsReturned<T>(status: int, statusText: string, parameters: string, data: T, asError: ErrorBody)
    requires 200 <= status <= 299
    ensures Settle(Responded(HttpResponse(status, statusText, Some(JsonMediaType + parameters), Json(asError, data))))
            == Resolved(Some(data))
  {
    ContainsInside("", JsonMediaType, parameters);
    assert "" + JsonMediaType + parameters == JsonMediaType + parameters;
  }

  /** A non-2xx answer whose body lacks the error shape keeps the HTTP status, so status 0 stays the transport's. */
  lemma HttpStatusKept<T>(response: HttpResponse<T>)
    requires !response.Ok() && !(response.body.Json? && HasErrorShape(response.body.asError))
    ensures Settle(Responded(response)).failure.error.status == response.status
  {
  }

  // ---------------------------------------------------------------- the request

  datatype RequestOptions<J> = RequestOptions(
    httpMethod: Option<string>,
    headers: map<string, string>,
    body: Option<string>,
    json: Option<J>,
    skipAuth: bool)

  /** One call of `fetch`: URL, method (None: the default GET), headers and body. */
  datatype FetchCall<J> = FetchCall(url: string, httpMethod: Option<string>, headers: map<string, string>, body: Option<SentBody<J>>)

  /** The calls issued so far. */
  class Network<J> {
    var calls: seq<FetchCall<J>>

    constructor ()
      ensures calls == []
    {
      calls := [];
    }

    method Fetch(call: FetchCall<J>)
      modifies this
      ensures calls == old(calls) + [call]
    {
      calls := calls + [call];
    }
  }

  /**
   * `apiRequest(path, options)`: builds the headers, resolves the URL, selects
   * the body, issues exactly one fetch and settles on its outcome.
   */
  method ApiRequest<J, T>(path: string, options: RequestOptions<J>, store: TokenStore, storageRaises: bool,
                          net: Network<J>, fetched: FetchOutcome<T>) returns (r: Outcome<T>)
    modifies net
    ensures net.calls == old(net.calls) + [FetchCall(
      ResolveUrl(path), options.httpMethod,
      RequestHeaders(options.headers, options.json.Some?, options.skipAuth, if storageRaises then None else store.item),
      SelectBody(options.json, options.body))]
    ensures r == Settle(fetched)
  {
    var headers := BuildHeaders(options.headers, options.json.Some?, options.skipAuth, store, storageRaises);
    var url := ResolveUrl(path);
    var body := SelectBody(options.json, options.body);
    net.Fetch(FetchCall(url, options.httpMethod, headers.fields, body));
    r := Settle(fetched);
  }
}
