/**
 * The logic of `HttpClient` that is not transport: the base URL and defaults it gives
 * its axios instance, `handleError` (which SDK error a failed request becomes),
 * `buildRequestConfig`, and `updateConfig`, which rebuilds the instance from the merged
 * configuration.
 */
module Http {
  import opened Base
  import opened Js

  // ---------------------------------------------------------------------------
  // getDefaultBaseUrl and the axios defaults

  const ProductionUrl: string := "https://api.transvoucher.com/v1.0"
  const SandboxUrl: string := "https://api-sandbox.transvoucher.com/v1.0"

  /**
   * `getDefaultBaseUrl()` for `config.environment`: the subdomain is "api" only for the
   * exact string "production".
   */
  function DefaultBaseUrl(environment: Value): (url: string)
    ensures url == ProductionUrl <==> environment == Some(JStr("production"))
    ensures url == SandboxUrl <==> environment != Some(JStr("production"))
  {
    assert ProductionUrl[11] != SandboxUrl[11];
    if environment == Some(JStr("production")) then ProductionUrl else SandboxUrl
  }

  /** The defaults `createAxiosInstance` gives the axios instance it builds. */
  datatype ClientSettings = ClientSettings(baseURL: Json, timeout: Json, apiKey: Value, apiSecret: Value)

  /** `config.timeout || 3e4`. */
  const DefaultTimeout: int := 30000

  /**
   * The defaults for `config`: `baseUrl || getDefaultBaseUrl()`, `timeout || 3e4`, and the
   * key and secret headers.
   */
  function Settings(config: Record): (s: ClientSettings)
    ensures Truthy(Some(s.baseURL)) && Truthy(Some(s.timeout))
    ensures Truthy(Field(config, "baseUrl")) ==> s.baseURL == config["baseUrl"]
    ensures !Truthy(Field(config, "baseUrl")) ==> s.baseURL == JStr(DefaultBaseUrl(Field(config, "environment")))
    ensures s.timeout == if Truthy(Field(config, "timeout")) then config["timeout"] else JNum(DefaultTimeout)
    ensures s.apiKey == Field(config, "apiKey") && s.apiSecret == Field(config, "apiSecret")
  {
    var baseUrl := Field(config, "baseUrl");
    var timeout := Field(config, "timeout");
    ClientSettings(
      if Truthy(baseUrl) then baseUrl.value else JStr(DefaultBaseUrl(Field(config, "environment"))),
      if Truthy(timeout) then timeout.value else JNum(DefaultTimeout),
      Field(config, "apiKey"),
      Field(config, "apiSecret"))
  }

  /** Without a base URL of its own, a client talks to production exactly when asked to. */
  lemma DefaultHost(config: Record)
    requires !Truthy(Field(config, "baseUrl"))
    ensures Settings(config).baseURL == JStr(ProductionUrl) <==> Field(config, "environment") == Some(JStr("production"))
    ensures Settings(config).baseURL == JStr(SandboxUrl) <==> Field(config, "environment") != Some(JStr("production"))
  {
    assert ProductionUrl[11] != SandboxUrl[11];
  }

  // ---------------------------------------------------------------------------
  // handleError

  /** The SDK's error classes. */
  datatype ErrorClass =
    | TransVoucherError
    | ValidationError
    | AuthenticationError
    | ApiError
    | NetworkError

  /**
   * A thrown SDK error: its class, message, `code`, `statusCode`, `response` and, for a
   * ValidationError, its `errors`.
   */
  datatype SdkError = SdkError(
    kind: ErrorClass, message: string, code: string,
    statusCode: Option<int>, response: Value, errors: Value)

  /** The `response` of a failed axios request: the HTTP status and the decoded body. */
  datatype HttpResponse = HttpResponse(status: int, data: Value)

  /**
   * A failed axios request: the response when the server answered, whether a request was
   * sent, and the error's message.
   */
  datatype AxiosError = AxiosError(response: Option<HttpResponse>, sentRequest: bool, message: string)

  /** The statuses `handleError` turns into an ApiError. */
  const ApiErrorStatuses: set<int> := {400, 403, 404, 409, 429}

  /**
   * `data?.message || error.message || "An API error occurred"`, as `super(message)` stores
   * it; `None` when that conversion throws a TypeError.
   */
  function ResponseMessage(data: Value, errorMessage: string): (r: Option<string>)
    ensures var m := OptionalProp(data, "message");
      r.None? <==> Truthy(m) && !Convertible(m.value)
    ensures var m := OptionalProp(data, "message");
      Truthy(m) ==> r == ToJsString(m.value)
    ensures var m := OptionalProp(data, "message");
      Truthy(m) && m.value.JStr? ==> r == Some(m.value.s)
    ensures !Truthy(OptionalProp(data, "message")) ==>
      r == Some(if errorMessage != [] then errorMessage else "An API error occurred")
  {
    var dataMessage := OptionalProp(data, "message");
    if Truthy(dataMessage) then ToJsString(dataMessage.value)
    else if errorMessage != [] then Some(errorMessage)
    else Some("An API error occurred")
  }

  /**
   * `handleError(error)`: the SDK error the interceptor rejects with, or `Err` with the
   * message of the TypeError thrown instead when the server's `message` cannot be
   * converted to a string.
   */
  function HandleError(error: AxiosError): (result: Result<SdkError, string>)
    ensures result.Err? <==> error.response.Some? && ResponseMessage(error.response.value.data, error.message).None?
    ensures result.Err? ==> result.error == ConversionError
    ensures result.Ok? && error.response.Some? ==>
      var r := result.value;
      var status := error.response.value.status;
      var data := error.response.value.data;
      && Some(r.message) == ResponseMessage(data, error.message)
      && r.statusCode == Some(status) && r.response == data
      && (r.kind == AuthenticationError <==> status == 401)
      && (r.kind == ValidationError <==> status == 422)
      && (r.kind == ApiError <==> status in ApiErrorStatuses)
      && (r.kind == TransVoucherError <==> status != 401 && status != 422 && status !in ApiErrorStatuses)
      && (r.kind == ValidationError ==>
            r.errors == Some(if Truthy(OptionalProp(data, "errors")) then OptionalProp(data, "errors").value
                             else JObj(map[])))
    ensures error.response.None? ==>
      var r := result.value;
      && r.kind == NetworkError && r.code == "NETWORK_ERROR"
      && r.statusCode.None? && r.response.None?
      && r.message == if error.sentRequest then "Network error: No response received"
                      else "Request error: " + error.message
  {
    match error.response
    case Some(HttpResponse(status, data)) =>
      (match ResponseMessage(data, error.message)
       case None => Err(ConversionError)
       case Some(message) =>
         var errors := OptionalProp(data, "errors");
         if status == 401 then
           Ok(SdkError(AuthenticationError, message, "AUTHENTICATION_ERROR", Some(status), data, None))
         else if status == 422 then
           Ok(SdkError(ValidationError, message, "VALIDATION_ERROR", Some(status), data,
                       Some(if Truthy(errors) then errors.value else JObj(map[]))))
         else if status in ApiErrorStatuses then
           Ok(SdkError(ApiError, message, "API_ERROR", Some(status), data, None))
         else
           Ok(SdkError(TransVoucherError, message, "API_ERROR", Some(status), data, None)))
    case None =>
      if error.sentRequest then
        Ok(SdkError(NetworkError, "Network error: No response received", "NETWORK_ERROR", None, None, None))
      else
        Ok(SdkError(NetworkError, "Request error: " + error.message, "NETWORK_ERROR", None, None, None))
  }

  /** The `code` each class's constructor sets; a plain TransVoucherError is built with "API_ERROR". */
  function CodeOf(c: ErrorClass): string {
    match c
    case TransVoucherError => "API_ERROR"
    case ValidationError => "VALIDATION_ERROR"
    case AuthenticationError => "AUTHENTICATION_ERROR"
    case ApiError => "API_ERROR"
    case NetworkError => "NETWORK_ERROR"
  }

  /** Every classified error carries the code of its class, and `errors` only when it is a ValidationError. */
  lemma HandleErrorWellFormed(error: AxiosError)
    ensures HandleError(error).Ok? ==>
      var r := HandleError(error).value;
      r.code == CodeOf(r.kind) && (r.errors.Some? <==> r.kind == ValidationError)
  {
  }

  /**
   * A server `message` that is an object with its own `toString` makes `super(message)`
   * throw, so the request rejects with a TypeError and not with an SDK error.
   */
  lemma UnconvertibleMessageThrows(status: int, errorMessage: string, sentRequest: bool)
    ensures HandleError(AxiosError(Some(HttpResponse(status, Some(JObj(map["message" := JObj(map["toString" := JNull])])))), sentRequest, errorMessage))
      == Err(ConversionError)
  {
  }

  /**
   * A truthy `data.message` always wins, even one whose text is empty: an empty array is
   * truthy, so the fallbacks are not reached and the message is "".
   */
  lemma ArrayMessageWins(status: int, errorMessage: string)
    ensures HandleError(AxiosError(Some(HttpResponse(status, Some(JObj(map["message" := JArr([])])))), true, errorMessage)).Ok?
    ensures HandleError(AxiosError(Some(HttpResponse(status, Some(JObj(map["message" := JArr([])])))), true, errorMessage)).value.message == ""
  {
  }

  /** The server's message wins over axios's, and a 422 without `errors` gets `{}`. */
  lemma ValidationErrorDefaults(message: string, errorMessage: string)
    ensures var result := HandleError(AxiosError(Some(HttpResponse(422, Some(JObj(map["message" := JStr(message)])))), true, errorMessage));
      result.Ok? &&
      var r := result.value;
      && r.kind == ValidationError
      && r.errors == Some(JObj(map[]))
      && r.message == if message != [] then message else if errorMessage != [] then errorMessage else "An API error occurred"
  {
  }

  // ---------------------------------------------------------------------------
  // buildRequestConfig

  /** The per-request axios options `buildRequestConfig` produces. */
  datatype RequestConfig = RequestConfig(timeout: Value, headers: Option<Record>)

  /** `{ ...v }` for the `headers` option: an object's own fields, and `{}` for anything else. */
  function SpreadObject(v: Json): Record {
    if v.JObj? then v.fields else map[]
  }

  /** `buildRequestConfig(options)`: copies a truthy `timeout` and a truthy `headers`. */
  function BuildRequestConfig(options: Value): (r: RequestConfig)
    ensures r.timeout.Some? <==> Truthy(OptionalProp(options, "timeout"))
    ensures r.timeout.Some? ==> r.timeout == OptionalProp(options, "timeout")
    ensures r.headers.Some? <==> Truthy(OptionalProp(options, "headers"))
    ensures r.headers.Some? ==> r.headers.value == SpreadObject(OptionalProp(options, "headers").value)
  {
    var timeout := OptionalProp(options, "timeout");
    var headers := OptionalProp(options, "headers");
    RequestConfig(
      if Truthy(timeout) then timeout else None,
      if Truthy(headers) then Some(SpreadObject(headers.value)) else None)
  }

  /** A request config as an options object. */
  function AsOptions(c: RequestConfig): Json {
    var withTimeout := if c.timeout.Some? then map["timeout" := c.timeout.value] else map[];
    JObj(if c.headers.Some? then withTimeout["headers" := JObj(c.headers.value)] else withTimeout)
  }

  /** Building a config from a built config gives it back. */
  lemma BuildRequestConfigIdempotent(options: Value)
    ensures BuildRequestConfig(Some(AsOptions(BuildRequestConfig(options)))) == BuildRequestConfig(options)
  {
    var c := BuildRequestConfig(options);
    var m := AsOptions(c).fields;
    if c.timeout.Some? && c.headers.Some? {
      assert m["timeout"] == c.timeout.value;
    }
  }

  /** Without options, or with an empty object, nothing is overridden. */
  lemma NoOptionsNoOverrides()
    ensures BuildRequestConfig(None) == RequestConfig(None, None)
    ensures BuildRequestConfig(Some(JObj(map[]))) == RequestConfig(None, None)
  {
  }

  // ---------------------------------------------------------------------------
  // The client object

  /** An `HttpClient`: its configuration and the axios instance built from it. */
  class HttpClient {
    var config: Record
    var settings: ClientSettings

    /** The axios instance was built from the current configuration. */
    predicate Valid()
      reads this
    {
      settings == Settings(config)
    }

    /** `new HttpClient(config)`. */
    constructor (config: Record)
      ensures this.config == config && Valid()
    {
      this.config := config;
      settings := Settings(config);
    }

    /** `getBaseUrl()`: `this.client.defaults.baseURL || ""`. */
    function GetBaseUrl(): (url: Json)
      reads this
      ensures Valid() ==> url == Settings(config).baseURL
      ensures Truthy(Some(url)) || url == JStr("")
    {
      if Truthy(Some(settings.baseURL)) then settings.baseURL else JStr("")
    }

    /** `updateConfig(newConfig)`: merge, with `newConfig` winning, then rebuild the instance. */
    method UpdateConfig(newConfig: Record)
      modifies this
      ensures config == old(config) + newConfig
      ensures Valid()
    {
      config := config + newConfig;
      settings := Settings(config);
    }
  }
}
