/**
 * The SDK's error taxonomy: which exception classes exist, how they derive
 * from one another, and what an API exception carries (status code, the
 * response, a message that is the parsed JSON body when there is one and
 * the raw text otherwise).
 */
module Exceptions {
  import opened Wrappers
  import opened PyValues
  import opened Text
  import opened Http

  /** The exception classes a call into the SDK can raise. */
  datatype ErrorClass =
    | PyException           // Python's `Exception`
    | PyTypeError           // Python's `TypeError`, raised by a bad constructor call
    | Klaviyo               // `KlaviyoException`
    | Configuration         // `KlaviyoConfigurationException`
    | Api                   // `KlaviyoAPIException`
    | Authentication        // `KlaviyoAuthenticationError`
    | RateLimit             // `KlaviyoRateLimitException`
    | Server                // `KlaviyoServerError`
    | LegacyKlaviyo         // the `KlaviyoException` of the legacy client module

  /** The direct base class; `Exception` is the root of this model. */
  function Parent(c: ErrorClass): (p: Option<ErrorClass>)
    ensures p.Some? ==> Depth(p.value) < Depth(c)
  {
    match c
    case PyException => None
    case PyTypeError | Klaviyo | Api | LegacyKlaviyo => Some(PyException)
    case Configuration => Some(Klaviyo)
    case Authentication | RateLimit | Server => Some(Api)
  }

  /** Distance from the root, so that walking up the bases terminates. */
  function Depth(c: ErrorClass): nat
  {
    match c
    case PyException => 0
    case PyTypeError | Klaviyo | Api | LegacyKlaviyo => 1
    case Configuration | Authentication | RateLimit | Server => 2
  }

  /** Python's `issubclass(c, d)`. */
  predicate IsSubclass(c: ErrorClass, d: ErrorClass)
    decreases Depth(c)
  {
    c == d || (Parent(c).Some? && IsSubclass(Parent(c).value, d))
  }

  /** The kinds of `KlaviyoAPIException` that a response can produce. */
  datatype ApiErrorKind = GenericError | AuthenticationError | RateLimitError | ServerError

  /** The `message` attribute of an API exception. */
  datatype Message = JsonMessage(json: Value) | TextMessage(text: string)

  /** A raised exception together with the attributes it carries. */
  datatype Failure =
    | KlaviyoException(message: string)
    | ConfigurationException(message: string)
    | ApiException(kind: ApiErrorKind, statusCode: int, response: HttpResponse)
    | TypeError(message: string)
    | LegacyKlaviyoException(message: string)
  {
    /** `type(self)`. */
    function Class(): ErrorClass
    {
      match this
      case KlaviyoException(_) => Klaviyo
      case ConfigurationException(_) => Configuration
      case ApiException(kind, _, _) =>
        (match kind
         case GenericError => Api
         case AuthenticationError => Authentication
         case RateLimitError => RateLimit
         case ServerError => Server)
      case TypeError(_) => PyTypeError
      case LegacyKlaviyoException(_) => LegacyKlaviyo
    }

    /** `isinstance(self, c)`: what an `except c:` clause catches. */
    predicate IsInstance(c: ErrorClass)
    {
      IsSubclass(Class(), c)
    }

    /** The `message` attribute an API exception sets from its response in `__init__`. */
    function ApiMessage(): Message
      requires ApiException?
    {
      ProcessMessage(response)
    }
  }

  /**
   * `KlaviyoAPIException._process_message`: the parsed JSON body when the
   * body parses, the raw text otherwise.
   */
  function ProcessMessage(response: HttpResponse): (m: Message)
    ensures m.JsonMessage? <==> response.json.Some?
    ensures m.JsonMessage? ==> m.json == response.json.value
    ensures m.TextMessage? ==> m.text == response.text
  {
    match response.json
    case Some(parsed) => JsonMessage(parsed)
    case None => TextMessage(response.text)
  }

  const STATUS_TEXT_PREFIX := "Failed with status code: "

  /**
   * `str(e)`: the text an exception was constructed with. For an API
   * exception it names the status code.
   */
  function Str(e: Failure): (s: string)
    ensures !e.ApiException? ==> s == e.message
    ensures e.ApiException? ==> |STATUS_TEXT_PREFIX| <= |s| && s[..|STATUS_TEXT_PREFIX|] == STATUS_TEXT_PREFIX
  {
    match e
    case ApiException(_, status, _) => STATUS_TEXT_PREFIX + IntToString(status)
    case KlaviyoException(m) => m
    case ConfigurationException(m) => m
    case TypeError(m) => m
    case LegacyKlaviyoException(m) => m
  }

  /** The status code of an API exception can be read back from its text. */
  lemma StatusCodeInText(e: Failure)
    requires e.ApiException? && e.statusCode >= 0
    ensures ParseDecimal(Str(e)[|STATUS_TEXT_PREFIX|..]) == Some(e.statusCode)
  {
    assert Str(e)[|STATUS_TEXT_PREFIX|..] == NatToString(e.statusCode);
    ParseNatToString(e.statusCode);
  }

  /** The classes that an `except KlaviyoAPIException` clause catches. */
  lemma {:induction false} ApiExceptionSubclasses(c: ErrorClass)
    ensures IsSubclass(c, Api) <==> c in {Api, Authentication, RateLimit, Server}
  {
    if Parent(c).Some? {
      var p := Parent(c).value;
      assert IsSubclass(p, Api) <==> p == Api;
    }
  }

  /** The classes that an `except KlaviyoException` clause catches. */
  lemma {:induction false} KlaviyoExceptionSubclasses(c: ErrorClass)
    ensures IsSubclass(c, Klaviyo) <==> c in {Klaviyo, Configuration}
  {
    if Parent(c).Some? {
      var p := Parent(c).value;
      assert IsSubclass(p, Klaviyo) <==> p == Klaviyo;
    }
  }

  /**
   * No exception is both a `KlaviyoException` and a `KlaviyoAPIException`,
   * so catching one never catches the other; a configuration error is a
   * `KlaviyoException`, and every API error kind is a `KlaviyoAPIException`.
   */
  lemma {:induction false} HierarchyIsDisjoint(e: Failure)
    ensures !(e.IsInstance(Klaviyo) && e.IsInstance(Api))
    ensures e.ConfigurationException? ==> e.IsInstance(Klaviyo) && !e.IsInstance(Api)
    ensures e.ApiException? ==> e.IsInstance(Api) && !e.IsInstance(Klaviyo)
    ensures e.LegacyKlaviyoException? ==> !e.IsInstance(Klaviyo) && !e.IsInstance(Api)
  {
    ApiExceptionSubclasses(e.Class());
    KlaviyoExceptionSubclasses(e.Class());
  }
}
