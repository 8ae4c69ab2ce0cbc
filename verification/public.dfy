/**
 * The `Public` resource: the track, track-once and identify calls of the
 * public API. Each validates that the customer is named by email or id,
 * builds a payload around the public token, and sends it as the query
 * string of a GET.
 */
module Public {
  import opened Wrappers
  import opened PyValues
  import opened Http
  import opened Exceptions
  import opened ApiHelper

  const IDENTIFY := "identify"
  const TRACK := "track"
  const TRACK_ONCE_KEY := "__track_once__"
  const TOKEN := "token"
  const ERROR_MESSAGE_ID_AND_EMAIL := "You must identify a user by email or ID."

  /** How `identify` was given its `properties` argument. */
  datatype PropsArg =
    | Omitted              // the default
    | Given(dict: Dict)    // a dictionary the caller owns
    | NotADict             // anything that is not a `dict`; it is replaced by a new one

  /** `_valid_identifiers`: a customer must be named by a truthy email or a truthy id. */
  function ValidIdentifiers(email: Value, externalId: Value): (r: Result<(), Failure>)
    ensures r.Failure? <==> !Truthy(email) && !Truthy(externalId)
    ensures r.Failure? ==> r.error == KlaviyoException(ERROR_MESSAGE_ID_AND_EMAIL)
  {
    if !Truthy(email) && !Truthy(externalId) then Failure(KlaviyoException(ERROR_MESSAGE_ID_AND_EMAIL))
    else Success(())
  }

  /**
   * The customer fields after `if email: d['email'] = email` and
   * `if external_id: d['id'] = external_id`: a truthy identifier replaces
   * the entry under its key, and every other entry is kept.
   */
  function IdentityFields(fields: map<string, Value>, email: Value, externalId: Value): (r: map<string, Value>)
    ensures forall k :: k in r <==> k in fields || (k == "email" && Truthy(email)) || (k == "id" && Truthy(externalId))
    ensures forall k :: k in r ==>
              r[k] == (if k == "email" && Truthy(email) then email
                       else if k == "id" && Truthy(externalId) then externalId
                       else fields[k])
  {
    var withEmail := if Truthy(email) then fields["email" := email] else fields;
    if Truthy(externalId) then withEmail["id" := externalId] else withEmail
  }

  /** The parameters of a track call before they are serialised. */
  function TrackPayload(token: Value, event: Value, properties: map<string, Value>,
                        customerProperties: map<string, Value>, time: Value, ipAddress: Value): (p: map<string, Value>)
    ensures p.Keys == {"token", "event", "properties", "customer_properties", "time"}
                      + (if Truthy(ipAddress) then {"ip"} else {})
    ensures p["token"] == token && p["event"] == event && p["time"] == time
    ensures p["properties"] == VDict(properties) && p["customer_properties"] == VDict(customerProperties)
    ensures "ip" in p ==> p["ip"] == ipAddress
  {
    var p := map[TOKEN := token, "event" := event, "properties" := VDict(properties),
                 "customer_properties" := VDict(customerProperties), "time" := time];
    if Truthy(ipAddress) then p["ip" := ipAddress] else p
  }

  /** The payload carried by the query string of a request that was sent. */
  function SentPayload(d: Dispatch<ApiResponse>): map<string, Value>
  {
    if d.sent.Some? && d.sent.value.url.query.Some? && d.sent.value.url.query.value.data.VDict? then
      d.sent.value.url.query.value.data.entries
    else
      map[]
  }

  /**
   * A whole `track` call, given the event properties as they stand when the
   * payload is built and the customer properties as the caller passed them:
   * validation, the identity fields, the payload and the public request.
   */
  function TrackDispatch(c: Client, event: Value, email: Value, externalId: Value, properties: map<string, Value>,
                         customerProperties: map<string, Value>, timestamp: Value, ipAddress: Value, isTest: bool,
                         response: HttpResponse): (d: Dispatch<ApiResponse>)
    ensures ValidIdentifiers(email, externalId).Failure? ==>
              d == Dispatch(None, Failure(KlaviyoException(ERROR_MESSAGE_ID_AND_EMAIL)))
    ensures d.sent.Some? <==> ValidIdentifiers(email, externalId).Success? && Truthy(c.publicToken)
    ensures ValidIdentifiers(email, externalId).Success? && !Truthy(c.publicToken) ==>
              d.outcome == Failure(ConfigurationException(NO_PUBLIC_TOKEN_MESSAGE))
    ensures d.sent.Some? ==> d.sent.value.verb == Get && d.sent.value.url.base == c.apiServer + "/track"
    ensures d.sent.Some? ==> d.sent.value.url.query.Some? && (d.sent.value.url.query.value.test == 1 <==> isTest)
    ensures d.sent.Some? ==>
              SentPayload(d) == TrackPayload(c.publicToken, event, properties,
                                             IdentityFields(customerProperties, email, externalId), timestamp, ipAddress)
    ensures d.sent.Some? ==> d.outcome == HandleResponse(response)
  {
    match ValidIdentifiers(email, externalId)
    case Failure(e) => Dispatch(None, Failure(e))
    case Success(_) =>
      var payload := TrackPayload(c.publicToken, event, properties, IdentityFields(customerProperties, email, externalId),
                                  timestamp, ipAddress);
      PublicRequest(c, TRACK, BuildQueryString(payload, isTest), response)
  }

  /**
   * Every track request that leaves the client carries the (truthy) public
   * token and names its customer by a truthy email or id, and carries an
   * `ip` entry only when the address is truthy.
   */
  lemma TrackIdentifiesCustomer(c: Client, event: Value, email: Value, externalId: Value, properties: map<string, Value>,
                                customerProperties: map<string, Value>, timestamp: Value, ipAddress: Value,
                                isTest: bool, response: HttpResponse)
    ensures var d := TrackDispatch(c, event, email, externalId, properties, customerProperties, timestamp, ipAddress,
                                   isTest, response);
            d.sent.Some? ==>
              && SentPayload(d)["token"] == c.publicToken && Truthy(c.publicToken)
              && SentPayload(d)["customer_properties"].VDict?
              && ("ip" in SentPayload(d) <==> Truthy(ipAddress))
              && var cp := SentPayload(d)["customer_properties"].entries;
                 (("email" in cp && Truthy(cp["email"])) || ("id" in cp && Truthy(cp["id"])))
  {
    var d := TrackDispatch(c, event, email, externalId, properties, customerProperties, timestamp, ipAddress,
                           isTest, response);
    if d.sent.Some? {
      var cp := IdentityFields(customerProperties, email, externalId);
      if Truthy(email) {
        assert "email" in cp && cp["email"] == email;
      } else {
        assert "id" in cp && cp["id"] == externalId;
      }
    }
  }

  /**
   * `track`: validates the identifiers, then writes the identity fields into
   * the caller's `customer_properties` dictionary (or a new one when it is
   * `None`) and sends the payload. A `None` event properties argument
   * becomes an empty dictionary.
   */
  method Track(c: Client, event: Value, email: Value, externalId: Value, properties: Dict?, customerProperties: Dict?,
               timestamp: Value, ipAddress: Value, isTest: bool, response: HttpResponse)
    returns (d: Dispatch<ApiResponse>)
    modifies customerProperties
    ensures customerProperties != null ==>
              customerProperties.entries ==
                (if ValidIdentifiers(email, externalId).Success?
                 then IdentityFields(old(customerProperties.entries), email, externalId)
                 else old(customerProperties.entries))
    ensures d == TrackDispatch(c, event, email, externalId,
                               if properties == null then map[] else properties.entries,
                               if customerProperties == null then map[] else old(customerProperties.entries),
                               timestamp, ipAddress, isTest, response)
  {
    var valid := ValidIdentifiers(email, externalId);
    if valid.Failure? {
      d := Dispatch(None, Failure(valid.error));
      return;
    }
    var customer: map<string, Value>;
    if customerProperties != null {
      customerProperties.entries := IdentityFields(customerProperties.entries, email, externalId);
      customer := customerProperties.entries;
    } else {
      customer := IdentityFields(map[], email, externalId);
    }
    var props := if properties == null then map[] else properties.entries;
    var payload := TrackPayload(c.publicToken, event, props, customer, timestamp, ipAddress);
    d := PublicRequest(c, TRACK, BuildQueryString(payload, isTest), response);
  }

  /**
   * `track_once`: marks the event properties with `__track_once__ = True`,
   * in the caller's dictionary and before any validation, then tracks. When
   * the caller passes one dictionary as both arguments, the customer
   * properties that `track` updates already carry the mark.
   */
  method TrackOnce(c: Client, event: Value, email: Value, externalId: Value, properties: Dict?,
                   customerProperties: Dict?, timestamp: Value, ipAddress: Value, isTest: bool,
                   response: HttpResponse)
    returns (d: Dispatch<ApiResponse>)
    modifies properties, customerProperties
    ensures properties != null ==>
              TRACK_ONCE_KEY in properties.entries && properties.entries[TRACK_ONCE_KEY] == VBool(true)
    ensures properties != null && properties != customerProperties ==>
              properties.entries == old(properties.entries)[TRACK_ONCE_KEY := VBool(true)]
    ensures customerProperties != null ==>
              var marked := if customerProperties == properties
                            then old(customerProperties.entries)[TRACK_ONCE_KEY := VBool(true)]
                            else old(customerProperties.entries);
              customerProperties.entries ==
                (if ValidIdentifiers(email, externalId).Success? then IdentityFields(marked, email, externalId) else marked)
    ensures d == TrackDispatch(c, event, email, externalId,
                               if properties == null then map[TRACK_ONCE_KEY := VBool(true)] else properties.entries,
                               if customerProperties == null then map[]
                               else if customerProperties == properties
                               then old(customerProperties.entries)[TRACK_ONCE_KEY := VBool(true)]
                               else old(customerProperties.entries),
                               timestamp, ipAddress, isTest, response)
  {
    var props := properties;
    if props == null {
      props := new Dict(map[]);
    }
    props.entries := props.entries[TRACK_ONCE_KEY := VBool(true)];
    d := Track(c, event, email, externalId, props, customerProperties, timestamp, ipAddress, isTest, response);
  }

  /**
   * The properties `identify` sends as the code is written: its second test
   * is `if id:`, the truthiness of Python's builtin `id`, which always
   * holds, so the `id` entry is always set to `external_id`, `None`
   * included.
   */
  function IdentifyFieldsAsWritten(fields: map<string, Value>, email: Value, externalId: Value): (r: map<string, Value>)
    ensures "id" in r && r["id"] == externalId
    ensures forall k :: k in r <==> k in fields || (k == "email" && Truthy(email)) || k == "id"
  {
    var withEmail := if Truthy(email) then fields["email" := email] else fields;
    withEmail["id" := externalId]
  }

  /**
   * As written, identifying by email alone wipes an `id` the caller put in
   * the properties and sends `"id": null`; the intended test on
   * `external_id` keeps the caller's id.
   */
  lemma IdentifyAsWrittenClobbersId()
    ensures IdentifyFieldsAsWritten(map["id" := VStr("abc")], VStr("a@b.c"), VNone)["id"] == VNone
    ensures IdentityFields(map["id" := VStr("abc")], VStr("a@b.c"), VNone)["id"] == VStr("abc")
  {
    var r := IdentityFields(map["id" := VStr("abc")], VStr("a@b.c"), VNone);
    assert "id" in r;
  }

  /**
   * As written, an omitted `properties` is one dictionary created with the
   * method and shared by every call that omits it: a call passing
   * validation writes into it and sends it. Returns what was sent, if
   * anything, and what the shared dictionary holds afterwards.
   */
  function IdentifySharedDefaultAsWritten(shared: map<string, Value>, email: Value, externalId: Value)
    : (r: (Option<map<string, Value>>, map<string, Value>))
    ensures r.0.None? <==> ValidIdentifiers(email, externalId).Failure?
    ensures r.0.None? ==> r.1 == shared
    ensures r.0.Some? ==> r.0.value == r.1 && r.1 == IdentifyFieldsAsWritten(shared, email, externalId)
  {
    if ValidIdentifiers(email, externalId).Failure? then (None, shared)
    else
      var sent := IdentifyFieldsAsWritten(shared, email, externalId);
      (Some(sent), sent)
  }

  /**
   * The shared default leaks one customer into the next: after
   * `identify(email='a@x.com')`, a call `identify(external_id='b')` sends
   * the first customer's email along with the second customer's id.
   */
  lemma SharedDefaultLeaksAcrossCalls()
    ensures var first := IdentifySharedDefaultAsWritten(map[], VStr("a@x.com"), VNone);
            var second := IdentifySharedDefaultAsWritten(first.1, VNone, VStr("b"));
            second.0.Some? && "email" in second.0.value && second.0.value["email"] == VStr("a@x.com")
  {
    var first := IdentifySharedDefaultAsWritten(map[], VStr("a@x.com"), VNone);
    assert "email" in first.1;
  }

  /**
   * A whole `identify` call with an omitted or replaced `properties`
   * starting from a new empty dictionary, and a given one starting from
   * the caller's entries.
   */
  function IdentifyDispatch(c: Client, email: Value, externalId: Value, properties: map<string, Value>, isTest: bool,
                            response: HttpResponse): (d: Dispatch<ApiResponse>)
    ensures ValidIdentifiers(email, externalId).Failure? ==>
              d == Dispatch(None, Failure(KlaviyoException(ERROR_MESSAGE_ID_AND_EMAIL)))
    ensures d.sent.Some? <==> ValidIdentifiers(email, externalId).Success? && Truthy(c.publicToken)
    ensures ValidIdentifiers(email, externalId).Success? && !Truthy(c.publicToken) ==>
              d.outcome == Failure(ConfigurationException(NO_PUBLIC_TOKEN_MESSAGE))
    ensures d.sent.Some? ==> d.sent.value.verb == Get && d.sent.value.url.base == c.apiServer + "/identify"
    ensures d.sent.Some? ==> d.sent.value.url.query.Some? && (d.sent.value.url.query.value.test == 1 <==> isTest)
    ensures d.sent.Some? ==>
              SentPayload(d) == map["token" := c.publicToken,
                                    "properties" := VDict(IdentityFields(properties, email, externalId))]
    ensures d.sent.Some? ==> d.outcome == HandleResponse(response)
  {
    match ValidIdentifiers(email, externalId)
    case Failure(e) => Dispatch(None, Failure(e))
    case Success(_) =>
      var payload := map[TOKEN := c.publicToken, "properties" := VDict(IdentityFields(properties, email, externalId))];
      PublicRequest(c, IDENTIFY, BuildQueryString(payload, isTest), response)
  }

  /**
   * With a fresh default, what an `identify` without properties sends
   * depends on its own arguments only: exactly the truthy identifiers.
   */
  lemma OmittedPropertiesAreFresh(c: Client, email: Value, externalId: Value, isTest: bool, response: HttpResponse)
    ensures var d := IdentifyDispatch(c, email, externalId, map[], isTest, response);
            d.sent.Some? ==>
              SentPayload(d)["properties"] ==
                VDict((if Truthy(email) then map["email" := email] else map[])
                      + (if Truthy(externalId) then map["id" := externalId] else map[]))
  {
    var r := IdentityFields(map[], email, externalId);
    var expected := (if Truthy(email) then map["email" := email] else map[])
                    + (if Truthy(externalId) then map["id" := externalId] else map[]);
    assert r.Keys == expected.Keys;
  }

  /**
   * `identify`: validates the identifiers, then writes them into the
   * properties dictionary — the caller's, when one was given — and sends
   * it with the public token. An omitted or non-dictionary `properties`
   * starts from a new empty dictionary.
   */
  method Identify(c: Client, email: Value, externalId: Value, properties: PropsArg, isTest: bool,
                  response: HttpResponse)
    returns (d: Dispatch<ApiResponse>)
    modifies if properties.Given? then {properties.dict} else {}
    ensures properties.Given? ==>
              properties.dict.entries ==
                (if ValidIdentifiers(email, externalId).Success?
                 then IdentityFields(old(properties.dict.entries), email, externalId)
                 else old(properties.dict.entries))
    ensures d == IdentifyDispatch(c, email, externalId,
                                  if properties.Given? then old(properties.dict.entries) else map[],
                                  isTest, response)
  {
    var valid := ValidIdentifiers(email, externalId);
    if valid.Failure? {
      d := Dispatch(None, Failure(valid.error));
      return;
    }
    var fields: map<string, Value>;
    if properties.Given? {
      properties.dict.entries := IdentityFields(properties.dict.entries, email, externalId);
      fields := properties.dict.entries;
    } else {
      fields := IdentityFields(map[], email, externalId);
    }
    var payload := map[TOKEN := c.publicToken, "properties" := VDict(fields)];
    d := PublicRequest(c, IDENTIFY, BuildQueryString(payload, isTest), response);
  }
}
