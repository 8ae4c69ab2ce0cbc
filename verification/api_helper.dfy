/**
 * The request-dispatch layer every resource call funnels through
 * (`KlaviyoAPI`): the client's credentials, parameter filtering, URL
 * assembly for the v1, v2 and public endpoints, the per-call token check
 * that precedes any transport call, and the classification of responses
 * into results and typed errors.
 */
module ApiHelper {
  import opened Wrappers
  import opened PyValues
  import opened Text
  import opened Http
  import opened Exceptions

  const KLAVIYO_API_SERVER := "https://a.klaviyo.com/api"
  const V1_API := "v1"
  const V2_API := "v2"
  const EMPTY_RESPONSE := ""
  const API_KEY := "api_key"
  const PUBLIC_API_RESPONSES := ["0", "1"]

  // Parameter keys and values shared by the resource classes.
  const METRIC := "metric"
  const METRICS := "metrics"
  const TIMELINE := "timeline"
  const COUNT := "count"
  const PAGE := "page"
  const SORT := "sort"
  const PROFILES := "profiles"
  const EMAILS := "emails"
  const EMAIL := "email"
  const SINCE := "since"
  const MARKER := "marker"
  const SORT_ASC := "asc"
  const SORT_DESC := "desc"

  const NO_TOKEN_MESSAGE := "You must provide a public or private api token"
  const NO_PUBLIC_TOKEN_MESSAGE := "Public token is not defined"
  const NO_PRIVATE_TOKEN_MESSAGE := "Private token is not defined"
  /**
   * The message of the `TypeError` Python raises when `KlaviyoAPIException`
   * is called with `message=`, in the wording of Python before 3.10; later
   * versions put the qualified name of `__init__` in front.
   */
  const UNEXPECTED_MESSAGE_KEYWORD := "__init__() got an unexpected keyword argument 'message'"

  /** Which token a request needs. */
  datatype RequestType = Public | Private

  datatype ApiVersion = V1 | V2

  /**
   * A `KlaviyoAPI` instance. Its fields are set once, by the constructor,
   * and never reassigned, so it is a value here.
   */
  datatype Client = Client(publicToken: Value, privateToken: Value, apiServer: string)

  /** `KlaviyoAPIResponse`: what a successful call returns. */
  datatype ApiResponse = ApiResponse(statusCode: int, data: Value)

  /**
   * What one call does: the transport call it makes, if any, and what it
   * returns or raises.
   */
  datatype Dispatch<T> = Dispatch(sent: Option<HttpRequest>, outcome: Result<T, Failure>)

  /**
   * What a resource method hands to `_v1_request` or `_v2_request`: the API
   * version, the verb, the resource path and the parameter dictionary.
   */
  datatype ApiCall = ApiCall(api: ApiVersion, verb: Verb, path: string, params: map<string, Value>)

  // ---------------------------------------------------------------------
  // Construction
  // ---------------------------------------------------------------------

  /** `KlaviyoAPI(public_token, private_token, api_server)`. */
  function NewClient(publicToken: Value := VNone, privateToken: Value := VNone,
                     apiServer: string := KLAVIYO_API_SERVER): (r: Result<Client, Failure>)
    ensures r.Failure? <==> !Truthy(publicToken) && !Truthy(privateToken)
    ensures r.Failure? ==> r.error == ConfigurationException(NO_TOKEN_MESSAGE)
    ensures r.Success? ==> r.value.publicToken == publicToken && r.value.privateToken == privateToken
                           && r.value.apiServer == apiServer
  {
    if !Truthy(publicToken) && !Truthy(privateToken) then Failure(ConfigurationException(NO_TOKEN_MESSAGE))
    else Success(Client(publicToken, privateToken, apiServer))
  }

  // ---------------------------------------------------------------------
  // Helpers
  // ---------------------------------------------------------------------

  /** `_filter_params`: drops the entries whose value is `None`, and only those. */
  function FilterParams(params: map<string, Value>): (r: map<string, Value>)
    ensures forall k :: k in r <==> k in params && params[k] != VNone
    ensures forall k :: k in r ==> r[k] == params[k]
  {
    map k | k in params && params[k] != VNone :: params[k]
  }

  /** Filtering twice is filtering once. */
  lemma FilterParamsIdempotent(params: map<string, Value>)
    ensures FilterParams(FilterParams(params)) == FilterParams(params)
  {
  }

  /** A map without `None` values comes back unchanged. */
  lemma FilterParamsKeepsNoneFree(params: map<string, Value>)
    requires forall k :: k in params ==> params[k] != VNone
    ensures FilterParams(params) == params
  {
  }

  /** The parameter `key` is sent exactly when its argument `v` is not `None`, and then as `v`. */
  predicate SentUnlessNone(params: map<string, Value>, key: string, v: Value)
  {
    (key in params <==> v != VNone) && (key in params ==> params[key] == v)
  }

  /** After filtering, an argument's parameter is sent exactly when it is not `None`. */
  lemma FilterSendsUnlessNone(params: map<string, Value>, key: string)
    requires key in params
    ensures SentUnlessNone(FilterParams(params), key, params[key])
  {
  }

  /**
   * The filtered `count`/`sort`/`since` parameters of every timeline call:
   * each is sent unless it is `None`, and nothing else is sent.
   */
  function TimelineParams(since: Value, count: Value, sort: Value): (r: map<string, Value>)
    ensures r.Keys <= {COUNT, SORT, SINCE}
    ensures SentUnlessNone(r, COUNT, count) && SentUnlessNone(r, SORT, sort) && SentUnlessNone(r, SINCE, since)
  {
    FilterParams(map[COUNT := count, SORT := sort, SINCE := since])
  }

  /** `_build_marker_param`: the pagination marker, when it is truthy. */
  function MarkerParam(marker: Value): (r: map<string, Value>)
    ensures MARKER in r <==> Truthy(marker)
    ensures r.Keys <= {MARKER}
    ensures MARKER in r ==> r[MARKER] == marker
  {
    if Truthy(marker) then map[MARKER := marker] else map[]
  }

  /** `_build_query_string`: `data` is the serialised payload, `test` is 1 or 0. */
  function BuildQueryString(params: map<string, Value>, isTest: bool): (q: QueryString)
    ensures q.data == VDict(params)
    ensures q.test in {0, 1} && (q.test == 1 <==> isTest)
  {
    QueryString(VDict(params), if isTest then 1 else 0)
  }

  function VersionSegment(api: ApiVersion): string
  {
    match api
    case V1 => V1_API
    case V2 => V2_API
  }

  /** The URL of a private call: `'{}/{}/{}'.format(api_server, version, path)`. */
  function ApiUrl(apiServer: string, api: ApiVersion, path: string): string
  {
    Join([apiServer, VersionSegment(api), path], '/')
  }

  /** The URL of a private call is the server, then the version, then the resource path. */
  lemma ApiUrlSegments(apiServer: string, api: ApiVersion, path: string)
    ensures Split(ApiUrl(apiServer, api, path), '/')
            == Split(apiServer, '/') + [VersionSegment(api)] + Split(path, '/')
  {
    var v := VersionSegment(api);
    JoinThree(apiServer, v, path, '/');
    assert ApiUrl(apiServer, api, path) == apiServer + ['/'] + (v + ['/'] + path);
    SplitConcat(apiServer, '/', v + ['/'] + path);
    SplitConcat(v, '/', path);
    SplitNoSeparator(v, '/');
  }

  // ---------------------------------------------------------------------
  // The per-call token check and the request itself
  // ---------------------------------------------------------------------

  /** `_is_valid_request_option`: the token the request type needs must be truthy. */
  function IsValidRequestOption(c: Client, requestType: RequestType := Private): (r: Result<(), Failure>)
    ensures r.Failure? <==> (requestType == Public && !Truthy(c.publicToken))
                            || (requestType == Private && !Truthy(c.privateToken))
    ensures r.Failure? ==> r.error == ConfigurationException(
              if requestType == Public then NO_PUBLIC_TOKEN_MESSAGE else NO_PRIVATE_TOKEN_MESSAGE)
  {
    if requestType == Public && !Truthy(c.publicToken) then
      Failure(ConfigurationException(NO_PUBLIC_TOKEN_MESSAGE))
    else if requestType == Private && !Truthy(c.privateToken) then
      Failure(ConfigurationException(NO_PRIVATE_TOKEN_MESSAGE))
    else Success(())
  }

  /** A client that was constructed can make requests of at least one type. */
  lemma ConstructedClientIsUsable(publicToken: Value, privateToken: Value, apiServer: string)
    requires NewClient(publicToken, privateToken, apiServer).Success?
    ensures var c := NewClient(publicToken, privateToken, apiServer).value;
            IsValidRequestOption(c, Public).Success? || IsValidRequestOption(c, Private).Success?
  {
  }

  /**
   * `_request`: the token check comes first, and only when it passes is the
   * transport called; `response` is what the transport returns then.
   */
  function Request(c: Client, verb: Verb, url: Url, params: Option<map<string, Value>>, data: Option<Value>,
                   requestType: RequestType, response: HttpResponse): (d: Dispatch<ApiResponse>)
    ensures d.sent.None? <==> IsValidRequestOption(c, requestType).Failure?
    ensures d.sent.None? ==> d.outcome == Failure(IsValidRequestOption(c, requestType).error)
    ensures d.sent.Some? ==> d.sent.value == HttpRequest(verb, url, params, data)
                             && d.outcome == HandleResponse(response)
  {
    match IsValidRequestOption(c, requestType)
    case Failure(e) => Dispatch(None, Failure(e))
    case Success(_) => Dispatch(Some(HttpRequest(verb, url, params, data)), HandleResponse(response))
  }

  /**
   * A call whose token is missing makes no transport call, and what it
   * raises does not depend on what the transport would have answered.
   */
  lemma MissingTokenMeansNoTransport(c: Client, verb: Verb, url: Url, params: Option<map<string, Value>>,
                                     data: Option<Value>, requestType: RequestType, r1: HttpResponse, r2: HttpResponse)
    requires IsValidRequestOption(c, requestType).Failure?
    ensures Request(c, verb, url, params, data, requestType, r1).sent == None
    ensures Request(c, verb, url, params, data, requestType, r1) == Request(c, verb, url, params, data, requestType, r2)
    ensures Request(c, verb, url, params, data, requestType, r1).outcome.error.IsInstance(Klaviyo)
    ensures !Request(c, verb, url, params, data, requestType, r1).outcome.error.IsInstance(Api)
  {
    HierarchyIsDisjoint(Request(c, verb, url, params, data, requestType, r1).outcome.error);
  }

  /**
   * `_public_request`: a GET of `api_server/path?querystring` that needs the
   * public token and carries neither params nor a body.
   */
  function PublicRequest(c: Client, path: string, querystring: QueryString, response: HttpResponse): (d: Dispatch<ApiResponse>)
    ensures d.sent.Some? <==> Truthy(c.publicToken)
    ensures d.sent.None? ==> d.outcome == Failure(ConfigurationException(NO_PUBLIC_TOKEN_MESSAGE))
    ensures d.sent.Some? ==> d.sent.value == HttpRequest(Get, Url(c.apiServer + "/" + path, Some(querystring)), None, None)
    ensures d.sent.Some? ==> d.outcome == HandleResponse(response)
  {
    JoinTwo(c.apiServer, path, '/');
    Request(c, Get, Url(Join([c.apiServer, path], '/'), Some(querystring)), None, None, Public, response)
  }

  /**
   * `_v1_request`: sets `api_key` to the private token in the caller's
   * dictionary, in place and before the token check, then sends the
   * dictionary as query parameters to `api_server/v1/path`.
   */
  method V1Request(c: Client, path: string, verb: Verb, params: Dict, response: HttpResponse)
    returns (d: Dispatch<ApiResponse>)
    modifies params
    ensures params.entries == old(params.entries)[API_KEY := c.privateToken]
    ensures d == Request(c, verb, Url(ApiUrl(c.apiServer, V1, path), None), Some(params.entries), None, Private, response)
  {
    var url := Join([c.apiServer, V1_API, path], '/');
    params.entries := params.entries[API_KEY := c.privateToken];
    d := Request(c, verb, Url(url, None), Some(params.entries), None, Private, response);
  }

  /**
   * `_v2_request`: sets `api_key` to the private token in the caller's
   * dictionary, in place and before the token check, then sends the
   * dictionary, serialised as JSON, as the body to `api_server/v2/path`.
   */
  method V2Request(c: Client, path: string, verb: Verb, data: Dict, response: HttpResponse)
    returns (d: Dispatch<ApiResponse>)
    modifies data
    ensures data.entries == old(data.entries)[API_KEY := c.privateToken]
    ensures d == Request(c, verb, Url(ApiUrl(c.apiServer, V2, path), None), None, Some(VDict(data.entries)), Private, response)
  {
    var url := Join([c.apiServer, V2_API, path], '/');
    data.entries := data.entries[API_KEY := c.privateToken];
    var body := VDict(data.entries);
    d := Request(c, verb, Url(url, None), None, Some(body), Private, response);
  }

  /**
   * The last line of every resource method: hand the call's dictionary
   * (`params`, which holds `call.params`) to `_v1_request` or `_v2_request`.
   */
  method Execute(c: Client, call: ApiCall, params: Dict, response: HttpResponse) returns (d: Dispatch<ApiResponse>)
    requires params.entries == call.params
    modifies params
    ensures params.entries == call.params[API_KEY := c.privateToken]
    ensures call.api == V1 ==>
      d == Request(c, call.verb, Url(ApiUrl(c.apiServer, V1, call.path), None), Some(params.entries), None, Private, response)
    ensures call.api == V2 ==>
      d == Request(c, call.verb, Url(ApiUrl(c.apiServer, V2, call.path), None), None, Some(VDict(params.entries)), Private, response)
  {
    match call.api
    case V1 => d := V1Request(c, call.path, call.verb, params, response);
    case V2 => d := V2Request(c, call.path, call.verb, params, response);
  }

  // ---------------------------------------------------------------------
  // Responses
  // ---------------------------------------------------------------------

  /**
   * `_handle_successful_response` as written: the parsed JSON body; failing
   * that, the text when it is empty, "0" or "1"; failing that, the call that
   * was meant to raise `KlaviyoAPIException` passes a `message` keyword the
   * class does not accept, so a `TypeError` is raised instead.
   */
  function HandleSuccessfulResponseAsWritten(response: HttpResponse, statusCode: int): (o: Result<ApiResponse, Failure>)
    ensures response.json.Some? ==> o == Success(ApiResponse(statusCode, response.json.value))
    ensures response.json.None? && response.text in {"", "0", "1"} ==>
              o == Success(ApiResponse(statusCode, VStr(response.text)))
    ensures response.json.None? && response.text !in {"", "0", "1"} ==>
              o == Failure(TypeError(UNEXPECTED_MESSAGE_KEYWORD))
  {
    match response.json
    case Some(parsed) => Success(ApiResponse(statusCode, parsed))
    case None =>
      if response.text == EMPTY_RESPONSE || response.text in PUBLIC_API_RESPONSES then
        Success(ApiResponse(statusCode, VStr(response.text)))
      else
        Failure(TypeError(UNEXPECTED_MESSAGE_KEYWORD))
  }

  /**
   * As written, a 200 whose body is neither JSON nor one of the known texts
   * escapes an `except KlaviyoAPIException` clause: what is raised is a
   * `TypeError`, not an API error.
   */
  lemma NonJsonSuccessAsWrittenEscapesApiHandler()
    ensures var response := HttpResponse(200, "<html>", None);
            && HandleSuccessfulResponseAsWritten(response, 200).Failure?
            && HandleSuccessfulResponseAsWritten(response, 200).error.IsInstance(PyTypeError)
            && !HandleSuccessfulResponseAsWritten(response, 200).error.IsInstance(Api)
  {
    var response := HttpResponse(200, "<html>", None);
    assert response.text !in {"", "0", "1"} by {
      assert response.text[0] == '<';
    }
  }

  /**
   * `_handle_successful_response` as intended: the parsed JSON body;
   * failing that, the text when it is empty, "0" or "1"; failing that, a
   * `KlaviyoAPIException` carrying the status code and the response.
   */
  function HandleSuccessfulResponse(response: HttpResponse, statusCode: int): (o: Result<ApiResponse, Failure>)
    ensures response.json.Some? ==> o == Success(ApiResponse(statusCode, response.json.value))
    ensures response.json.None? && response.text in {"", "0", "1"} ==>
              o == Success(ApiResponse(statusCode, VStr(response.text)))
    ensures response.json.None? && response.text !in {"", "0", "1"} ==>
              o == Failure(ApiException(GenericError, statusCode, response))
  {
    match response.json
    case Some(parsed) => Success(ApiResponse(statusCode, parsed))
    case None =>
      if response.text == EMPTY_RESPONSE || response.text in PUBLIC_API_RESPONSES then
        Success(ApiResponse(statusCode, VStr(response.text)))
      else
        Failure(ApiException(GenericError, statusCode, response))
  }

  /** The two versions differ only in what the last branch raises. */
  lemma HandleSuccessfulResponseCorrection(response: HttpResponse, statusCode: int)
    ensures HandleSuccessfulResponseAsWritten(response, statusCode).Success?
            <==> HandleSuccessfulResponse(response, statusCode).Success?
    ensures HandleSuccessfulResponse(response, statusCode).Success? ==>
              HandleSuccessfulResponseAsWritten(response, statusCode) == HandleSuccessfulResponse(response, statusCode)
    ensures HandleSuccessfulResponse(response, statusCode).Failure? ==>
              HandleSuccessfulResponse(response, statusCode).error.IsInstance(Api)
  {
    var o := HandleSuccessfulResponse(response, statusCode);
    if o.Failure? {
      HierarchyIsDisjoint(o.error);
    }
  }

  /** `_handle_response`: the status-code decision table. */
  function HandleResponse(response: HttpResponse): (o: Result<ApiResponse, Failure>)
    ensures response.statusCode == 403 ==> o == Failure(ApiException(AuthenticationError, 403, response))
    ensures response.statusCode == 429 ==> o == Failure(ApiException(RateLimitError, 429, response))
    ensures response.statusCode in {500, 503} ==> o == Failure(ApiException(ServerError, response.statusCode, response))
    ensures response.statusCode !in {200, 202, 403, 429, 500, 503} ==>
              o == Failure(ApiException(GenericError, response.statusCode, response))
    ensures response.statusCode in {200, 202} ==> o == HandleSuccessfulResponse(response, response.statusCode)
  {
    var status := response.statusCode;
    if status == 403 then Failure(ApiException(AuthenticationError, status, response))
    else if status == 429 then Failure(ApiException(RateLimitError, status, response))
    else if status in {500, 503} then Failure(ApiException(ServerError, status, response))
    else if status != 200 && status != 202 then Failure(ApiException(GenericError, status, response))
    else HandleSuccessfulResponse(response, status)
  }

  /** The outcome raised an instance of `c`: what `pytest.raises(c)` observes. */
  predicate Raises<T>(o: Result<T, Failure>, c: ErrorClass)
  {
    o.Failure? && o.error.IsInstance(c)
  }

  /**
   * The classification seen through `except` clauses: each error class is
   * raised for exactly its status codes; a `KlaviyoAPIException` is raised
   * for every status outside 200 and 202 and for a 200 or 202 whose body is
   * unusable, and nothing else is ever raised; a success keeps the status code.
   */
  lemma ResponseClassification(response: HttpResponse)
    ensures Raises(HandleResponse(response), Authentication) <==> response.statusCode == 403
    ensures Raises(HandleResponse(response), RateLimit) <==> response.statusCode == 429
    ensures Raises(HandleResponse(response), Server) <==> response.statusCode in {500, 503}
    ensures Raises(HandleResponse(response), Api) <==>
              response.statusCode !in {200, 202} || (response.json.None? && response.text !in {"", "0", "1"})
    ensures HandleResponse(response).Failure? ==> Raises(HandleResponse(response), Api)
    ensures HandleResponse(response).Success? ==>
              response.statusCode in {200, 202} && HandleResponse(response).value.statusCode == response.statusCode
    ensures Raises(HandleResponse(response), Api) ==>
              HandleResponse(response).error.statusCode == response.statusCode
              && HandleResponse(response).error.response == response
  {
    var o := HandleResponse(response);
    if o.Failure? {
      HierarchyIsDisjoint(o.error);
      ApiExceptionSubclasses(o.error.Class());
    }
  }

  /** What a JSON parser makes of the three bodies the text fallback knows. */
  predicate ParsesLikeJson(response: HttpResponse)
  {
    && (response.text == "" ==> response.json == None)
    && (response.text == "0" ==> response.json == Some(VInt(0)))
    && (response.text == "1" ==> response.json == Some(VInt(1)))
  }

  /**
   * The message of every API exception a call raises is read from the
   * response it failed on: the parsed JSON body when there is one, and for
   * a 200 or 202 it is always the raw text, since only an unparsable body
   * fails there.
   */
  lemma ApiErrorMessage(response: HttpResponse)
    requires Raises(HandleResponse(response), Api)
    ensures HandleResponse(response).error.ApiMessage() == ProcessMessage(response)
    ensures response.json.Some? ==> HandleResponse(response).error.ApiMessage() == JsonMessage(response.json.value)
    ensures response.statusCode in {200, 202} ==> HandleResponse(response).error.ApiMessage() == TextMessage(response.text)
  {
    ResponseClassification(response);
  }

  /**
   * With a real JSON parser, "0" and "1" parse as numbers, so the text
   * fallback only ever returns the empty body, and a public call's "1"
   * comes back as the number 1.
   */
  lemma TextFallbackOnlyForEmptyBody(response: HttpResponse, statusCode: int)
    requires ParsesLikeJson(response)
    ensures HandleSuccessfulResponse(response, statusCode).Success?
            && HandleSuccessfulResponse(response, statusCode).value.data.VStr?
            && response.json.None?
            ==> response.text == ""
    ensures response.text == "1" ==> HandleSuccessfulResponse(response, statusCode) == Success(ApiResponse(statusCode, VInt(1)))
    ensures response.text == "0" ==> HandleSuccessfulResponse(response, statusCode) == Success(ApiResponse(statusCode, VInt(0)))
  {
  }
}
