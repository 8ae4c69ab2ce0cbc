/**
 * The legacy client of the package's top-level module: track, track-once
 * and identify against `http://<server>/api/...`, with a looser
 * identifier check than the current client, an `ip` entry that is always
 * present, and a result that is just "the body was `1`".
 */
module Legacy {
  import opened Wrappers
  import opened PyValues
  import opened Http
  import opened Exceptions
  import opened ApiHelper
  import Public

  const LEGACY_API_SERVER := "a.klaviyo.com"
  const TRACKING_ENDPOINT := "api/track"
  const IDENTIFY_ENDPOINT := "api/identify"
  const TRACK_ONCE_KEY := "__track_once__"
  const LEGACY_ERROR_MESSAGE := "You must identify a user by email or ID."

  /** A `Klaviyo` instance; its fields are set once, by the constructor, which checks nothing. */
  datatype LegacyClient = LegacyClient(apiToken: Value, apiServer: string)

  /** `Klaviyo(api_token, api_server='a.klaviyo.com')`. */
  function NewLegacyClient(apiToken: Value, apiServer: string := LEGACY_API_SERVER): (lc: LegacyClient)
    ensures lc.apiToken == apiToken && lc.apiServer == apiServer
  {
    LegacyClient(apiToken, apiServer)
  }

  /** The legacy check: it fails only when email and id are both `None`. */
  function LegacyValidIdentifiers(email: Value, id: Value): (r: Result<(), Failure>)
    ensures r.Failure? <==> email == VNone && id == VNone
    ensures r.Failure? ==> r.error == LegacyKlaviyoException(LEGACY_ERROR_MESSAGE)
  {
    if email == VNone && id == VNone then Failure(LegacyKlaviyoException(LEGACY_ERROR_MESSAGE)) else Success(())
  }

  /**
   * `_request`: a GET of `http://<server>/<path>?<params>`; the result is
   * whether the body is exactly `1`, whatever the status code.
   */
  function LegacyRequest(lc: LegacyClient, path: string, query: QueryString, response: HttpResponse)
    : (d: Dispatch<bool>)
    ensures d.sent == Some(HttpRequest(Get, Url("http://" + lc.apiServer + "/" + path, Some(query)), None, None))
    ensures d.outcome.Success?
    ensures d.outcome.value <==> response.text == "1"
  {
    var url := "http://" + lc.apiServer + "/" + path;
    Dispatch(Some(HttpRequest(Get, Url(url, Some(query)), None, None)), Success(response.text == "1"))
  }

  /** The parameters of a legacy track call: `ip` is always there, `''` when the address is falsy. */
  function LegacyTrackPayload(token: Value, event: Value, properties: map<string, Value>,
                              customerProperties: map<string, Value>, time: Value, ipAddress: Value)
    : (p: map<string, Value>)
    ensures p.Keys == {"token", "event", "properties", "customer_properties", "time", "ip"}
    ensures p["token"] == token && p["event"] == event && p["time"] == time
    ensures p["properties"] == VDict(properties) && p["customer_properties"] == VDict(customerProperties)
    ensures p["ip"] == (if Truthy(ipAddress) then ipAddress else VStr(""))
  {
    map["token" := token, "event" := event, "properties" := VDict(properties),
        "customer_properties" := VDict(customerProperties), "time" := time,
        "ip" := if Truthy(ipAddress) then ipAddress else VStr("")]
  }

  /** A whole legacy `track` call, with the customer properties as the caller passed them. */
  function LegacyTrackDispatch(lc: LegacyClient, event: Value, email: Value, id: Value, properties: map<string, Value>,
                               customerProperties: map<string, Value>, timestamp: Value, ipAddress: Value,
                               isTest: bool, response: HttpResponse): (d: Dispatch<bool>)
    ensures d.sent.None? <==> email == VNone && id == VNone
    ensures d.sent.None? ==> d.outcome == Failure(LegacyKlaviyoException(LEGACY_ERROR_MESSAGE))
    ensures d.sent.Some? ==> d.sent.value.url.base == "http://" + lc.apiServer + "/api/track"
    ensures d.sent.Some? ==>
              d.sent.value.url.query ==
                Some(BuildQueryString(LegacyTrackPayload(lc.apiToken, event, properties,
                                                         Public.IdentityFields(customerProperties, email, id),
                                                         timestamp, ipAddress), isTest))
    ensures d.sent.Some? ==> d.outcome == Success(response.text == "1")
  {
    match LegacyValidIdentifiers(email, id)
    case Failure(e) => Dispatch(None, Failure(e))
    case Success(_) =>
      var payload := LegacyTrackPayload(lc.apiToken, event, properties, Public.IdentityFields(customerProperties, email, id),
                                        timestamp, ipAddress);
      LegacyRequest(lc, TRACKING_ENDPOINT, BuildQueryString(payload, isTest), response)
  }

  /** A whole legacy `identify` call, with the properties as the caller passed them. */
  function LegacyIdentifyDispatch(lc: LegacyClient, email: Value, id: Value, properties: map<string, Value>,
                                  isTest: bool, response: HttpResponse): (d: Dispatch<bool>)
    ensures d.sent.None? <==> email == VNone && id == VNone
    ensures d.sent.None? ==> d.outcome == Failure(LegacyKlaviyoException(LEGACY_ERROR_MESSAGE))
    ensures d.sent.Some? ==> d.sent.value.url.base == "http://" + lc.apiServer + "/api/identify"
    ensures d.sent.Some? ==>
              d.sent.value.url.query ==
                Some(BuildQueryString(map["token" := lc.apiToken,
                                          "properties" := VDict(Public.IdentityFields(properties, email, id))], isTest))
    ensures d.sent.Some? ==> d.outcome == Success(response.text == "1")
  {
    match LegacyValidIdentifiers(email, id)
    case Failure(e) => Dispatch(None, Failure(e))
    case Success(_) =>
      var payload := map["token" := lc.apiToken, "properties" := VDict(Public.IdentityFields(properties, email, id))];
      LegacyRequest(lc, IDENTIFY_ENDPOINT, BuildQueryString(payload, isTest), response)
  }

  /**
   * The legacy check is looser than the current one: an empty email with no
   * id is refused by the current client but sent by the legacy one, with
   * customer properties that name nobody.
   */
  lemma LegacyAcceptsUnidentifiedCustomer(lc: LegacyClient, event: Value, isTest: bool, response: HttpResponse)
    ensures Public.ValidIdentifiers(VStr(""), VNone).Failure?
    ensures var d := LegacyTrackDispatch(lc, event, VStr(""), VNone, map[], map[], VNone, VNone, isTest, response);
            d.sent.Some?
            && d.sent.value.url.query.value.data.entries["customer_properties"] == VDict(map[])
  {
    assert Public.IdentityFields(map[], VStr(""), VNone) == map[];
  }

  /** Whenever the current client accepts the identifiers, so does the legacy one. */
  lemma LegacyCheckIsWeaker(email: Value, id: Value)
    ensures Public.ValidIdentifiers(email, id).Success? ==> LegacyValidIdentifiers(email, id).Success?
  {
  }

  /**
   * Legacy `track`: checks the identifiers, writes the truthy ones into the
   * caller's `customer_properties` (or a new dictionary) and sends the
   * payload.
   */
  method Track(lc: LegacyClient, event: Value, email: Value, id: Value, properties: Dict?, customerProperties: Dict?,
               timestamp: Value, ipAddress: Value, isTest: bool, response: HttpResponse)
    returns (d: Dispatch<bool>)
    modifies customerProperties
    ensures customerProperties != null ==>
              customerProperties.entries ==
                (if LegacyValidIdentifiers(email, id).Success?
                 then Public.IdentityFields(old(customerProperties.entries), email, id)
                 else old(customerProperties.entries))
    ensures d == LegacyTrackDispatch(lc, event, email, id,
                                     if properties == null then map[] else properties.entries,
                                     if customerProperties == null then map[] else old(customerProperties.entries),
                                     timestamp, ipAddress, isTest, response)
  {
    var valid := LegacyValidIdentifiers(email, id);
    if valid.Failure? {
      d := Dispatch(None, Failure(valid.error));
      return;
    }
    var customer: map<string, Value>;
    if customerProperties != null {
      customerProperties.entries := Public.IdentityFields(customerProperties.entries, email, id);
      customer := customerProperties.entries;
    } else {
      customer := Public.IdentityFields(map[], email, id);
    }
    var props := if properties == null then map[] else properties.entries;
    var payload := LegacyTrackPayload(lc.apiToken, event, props, customer, timestamp, ipAddress);
    d := LegacyRequest(lc, TRACKING_ENDPOINT, BuildQueryString(payload, isTest), response);
  }

  /**
   * Legacy `track_once`: marks the event properties with
   * `__track_once__ = True` in the caller's dictionary, before the check,
   * and tracks without passing the timestamp on, so `time` is always `None`.
   */
  method TrackOnce(lc: LegacyClient, event: Value, email: Value, id: Value, properties: Dict?,
                   customerProperties: Dict?, timestamp: Value, ipAddress: Value, isTest: bool,
                   response: HttpResponse)
    returns (d: Dispatch<bool>)
    modifies properties, customerProperties
    ensures properties != null ==>
              TRACK_ONCE_KEY in properties.entries && properties.entries[TRACK_ONCE_KEY] == VBool(true)
    ensures properties != null && properties != customerProperties ==>
              properties.entries == old(properties.entries)[TRACK_ONCE_KEY := VBool(true)]
    ensures customerProperties != null ==>
              var marked := if customerProperties == properties
                            then old(customerProperties.entries)[TRACK_ONCE_KEY := VBool(true)]
                            else old(customerProperties.entries);
              customerProperties.entries ==
                (if LegacyValidIdentifiers(email, id).Success? then Public.IdentityFields(marked, email, id) else marked)
    ensures d == LegacyTrackDispatch(lc, event, email, id,
                                     if properties == null then map[TRACK_ONCE_KEY := VBool(true)] else properties.entries,
                                     if customerProperties == null then map[]
                                     else if customerProperties == properties
                                     then old(customerProperties.entries)[TRACK_ONCE_KEY := VBool(true)]
                                     else old(customerProperties.entries),
                                     VNone, ipAddress, isTest, response)
  {
    var props := properties;
    if props == null {
      props := new Dict(map[]);
    }
    props.entries := props.entries[TRACK_ONCE_KEY := VBool(true)];
    d := Track(lc, event, email, id, props, customerProperties, VNone, ipAddress, isTest, response);
  }

  /**
   * Legacy `identify`: checks the identifiers, writes the truthy ones into
   * the caller's `properties` (or a new dictionary) and sends them.
   */
  method Identify(lc: LegacyClient, email: Value, id: Value, properties: Dict?, isTest: bool, response: HttpResponse)
    returns (d: Dispatch<bool>)
    modifies properties
    ensures properties != null ==>
              properties.entries ==
                (if LegacyValidIdentifiers(email, id).Success?
                 then Public.IdentityFields(old(properties.entries), email, id)
                 else old(properties.entries))
    ensures d == LegacyIdentifyDispatch(lc, email, id, if properties == null then map[] else old(properties.entries),
                                        isTest, response)
  {
    var valid := LegacyValidIdentifiers(email, id);
    if valid.Failure? {
      d := Dispatch(None, Failure(valid.error));
      return;
    }
    var fields: map<string, Value>;
    if properties != null {
      properties.entries := Public.IdentityFields(properties.entries, email, id);
      fields := properties.entries;
    } else {
      fields := Public.IdentityFields(map[], email, id);
    }
    var payload := map["token" := lc.apiToken, "properties" := VDict(fields)];
    d := LegacyRequest(lc, IDENTIFY_ENDPOINT, BuildQueryString(payload, isTest), response);
  }
}
