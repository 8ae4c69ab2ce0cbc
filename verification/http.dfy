/**
 * The vocabulary of the HTTP transport that the SDK hands its requests to
 * (the `requests` package): verbs, URLs, outgoing requests and incoming
 * responses. The transport itself is not modelled; a response is an input.
 */
module Http {
  import opened Wrappers
  import opened PyValues

  /** The verbs the SDK passes to `getattr(requests, method.lower())`. */
  datatype Verb = Get | Post | Put | Delete

  /**
   * The urlencoded query string `data=<base64(json(data))>&test=<test>`:
   * it is kept as the value that gets serialised and the test flag, since
   * JSON, base64 and urlencode are library codecs.
   */
  datatype QueryString = QueryString(data: Value, test: int)

  /** A URL: the text up to the `?`, and the query string after it, if any. */
  datatype Url = Url(base: string, query: Option<QueryString>)

  /**
   * One call of the transport: `params` are sent as query parameters,
   * `data` is the value whose JSON serialisation is sent as the body.
   */
  datatype HttpRequest = HttpRequest(verb: Verb, url: Url, params: Option<map<string, Value>>, data: Option<Value>)

  /**
   * A response: its status code, its body text, and what `response.json()`
   * yields (None when the body does not parse as JSON).
   */
  datatype HttpResponse = HttpResponse(statusCode: int, text: string, json: Option<Value>)
}
