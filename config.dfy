/**
 * The `TransVoucher` entry point: `validateApiKey`, `validateConfig`, the environment
 * queries, the `sandbox`/`production` factories, and the object whose `updateConfig`
 * and `switchEnvironment` change its configuration and its HTTP client. `new URL(s)`
 * succeeding is the parameter `isUrl`.
 */
module Sdk {
  import opened Base
  import opened Js
  import opened FieldChecks
  import opened Http

  /** Whether `new URL(s)` accepts `s`. */
  type UrlParser = string -> bool

  // ---------------------------------------------------------------------------
  // validateApiKey

  /** `s.trim().length >= 10`: ten UTF-16 code units once the surrounding whitespace is gone. */
  predicate LongEnough(s: string) {
    Utf16Length(Trim(s)) >= 10
  }

  /** `TransVoucher.validateApiKey(apiKey)`. */
  function ValidateApiKey(apiKey: Value): (r: bool)
    ensures r <==> apiKey.Some? && apiKey.value.JStr? && LongEnough(apiKey.value.s)
    ensures r ==> !AllWhitespace(apiKey.value.s)
  {
    if !Truthy(apiKey) || TypeOf(apiKey) != String then false
    else LongEnough(apiKey.value.s)
  }

  /** `trim` removes nothing from a string that starts and ends with a non-blank. */
  lemma TrimKeepsInner(s: string)
    requires s != [] && !IsWhitespace(s[0]) && !IsWhitespace(s[|s| - 1])
    ensures Trim(s) == s
  {
  }

  /** A string of ten or more characters with no blank at either end is an acceptable key. */
  lemma LongKeyAccepted(s: string)
    requires |s| >= 10 && !IsWhitespace(s[0]) && !IsWhitespace(s[|s| - 1])
    ensures ValidateApiKey(Some(JStr(s)))
  {
    TrimKeepsInner(s);
  }

  // ---------------------------------------------------------------------------
  // validateConfig

  const ApiKeyRequired := "API key is required"
  const ApiKeyNotString := "API key must be a string"
  const ApiKeyInvalid := "API key format is invalid"
  const ApiSecretRequired := "API secret is required"
  const ApiSecretNotString := "API secret must be a string"
  const ApiSecretInvalid := "API secret format is invalid"
  const EnvironmentInvalid := "Environment must be either \"sandbox\" or \"production\""
  const BaseUrlInvalid := "Base URL must be a valid URL"
  const TimeoutInvalid := "Timeout must be a positive number"

  /** The two environments `validateConfig` accepts. */
  const Environments: seq<string> := ["sandbox", "production"]

  /** The `apiKey` chain: missing, not a string, or rejected by `validateApiKey`. */
  function ApiKeyRule(apiKey: Value): Option<string> {
    if !Truthy(apiKey) then Some(ApiKeyRequired)
    else if TypeOf(apiKey) != String then Some(ApiKeyNotString)
    else if !ValidateApiKey(apiKey) then Some(ApiKeyInvalid)
    else None
  }

  /** The `apiSecret` chain: missing, not a string, or under ten units once trimmed. */
  function ApiSecretRule(apiSecret: Value): Option<string> {
    if !Truthy(apiSecret) then Some(ApiSecretRequired)
    else if TypeOf(apiSecret) != String then Some(ApiSecretNotString)
    else if !LongEnough(apiSecret.value.s) then Some(ApiSecretInvalid)
    else None
  }

  /** `env && !["sandbox", "production"].includes(env)`. */
  predicate UnknownEnvironment(environment: Value) {
    Truthy(environment) && !(environment.value.JStr? && environment.value.s in Environments)
  }

  /** A string environment is unknown exactly when it is non-empty and neither of the two. */
  lemma UnknownEnvironmentText(environment: string)
    ensures UnknownEnvironment(Some(JStr(environment))) <==> environment != [] && environment !in Environments
  {
  }

  /**
   * `baseUrl` is truthy and `new URL(baseUrl)` throws: either converting it to a string
   * throws a TypeError, or the URL parser refuses `String(baseUrl)`. The `catch` records
   * both the same way.
   */
  predicate BadBaseUrl(baseUrl: Value, isUrl: UrlParser) {
    Truthy(baseUrl) && (ToJsString(baseUrl.value).None? || !isUrl(ToJsString(baseUrl.value).value))
  }

  /** `timeout !== undefined && (typeof timeout !== "number" || timeout <= 0)`. */
  predicate BadTimeout(timeout: Value) {
    timeout.Some? && !IsPositiveNumber(timeout)
  }

  /** The five checks of `validateConfig`, in its order. */
  function ConfigChecks(config: Record, isUrl: UrlParser): (checks: seq<Check>)
    ensures |checks| == 5
  {
    [ Check("apiKey", ApiKeyRule(Field(config, "apiKey"))),
      Check("apiSecret", ApiSecretRule(Field(config, "apiSecret"))),
      Check("environment", Report(UnknownEnvironment(Field(config, "environment")), EnvironmentInvalid)),
      Check("baseUrl", Report(BadBaseUrl(Field(config, "baseUrl"), isUrl), BaseUrlInvalid)),
      Check("timeout", Report(BadTimeout(Field(config, "timeout")), TimeoutInvalid)) ]
  }

  lemma ConfigChecksDistinct(config: Record, isUrl: UrlParser)
    ensures DistinctFields(ConfigChecks(config, isUrl))
  {
    var checks := ConfigChecks(config, isUrl);
    var lengths := [6, 9, 11, 7, 7];
    assert forall i :: 0 <= i < 5 ==> |checks[i].field| == lengths[i];
    assert checks[3].field[0] != checks[4].field[0];
  }

  /** The `errors` object `validateConfig` builds for `config`. */
  function ConfigErrors(config: Record, isUrl: UrlParser): FieldErrors {
    Collect(ConfigChecks(config, isUrl))
  }

  /** A configuration the SDK accepts. */
  predicate ValidConfig(config: Record, isUrl: UrlParser) {
    ConfigErrors(config, isUrl) == map[]
  }

  /** The `apiKey` block of `validateConfig`. */
  method CheckApiKey(errors: FieldErrors, apiKey: Value) returns (next: FieldErrors)
    ensures next == Add(errors, Check("apiKey", ApiKeyRule(apiKey)))
  {
    next := errors;
    if !Truthy(apiKey) {
      next := next["apiKey" := [ApiKeyRequired]];
    } else if TypeOf(apiKey) != String {
      next := next["apiKey" := [ApiKeyNotString]];
    } else {
      next := Flag(next, "apiKey", !ValidateApiKey(apiKey), ApiKeyInvalid);
    }
  }

  /** The `apiSecret` block of `validateConfig`. */
  method CheckApiSecret(errors: FieldErrors, apiSecret: Value) returns (next: FieldErrors)
    ensures next == Add(errors, Check("apiSecret", ApiSecretRule(apiSecret)))
  {
    next := errors;
    if !Truthy(apiSecret) {
      next := next["apiSecret" := [ApiSecretRequired]];
    } else if TypeOf(apiSecret) != String {
      next := next["apiSecret" := [ApiSecretNotString]];
    } else {
      next := Flag(next, "apiSecret", !LongEnough(apiSecret.value.s), ApiSecretInvalid);
    }
  }

  /** `validateConfig(config)`: throws "Invalid configuration" with every failing field. */
  method ValidateConfig(config: Record, isUrl: UrlParser) returns (r: Outcome<ValidationFailure>)
    ensures r.Pass? <==> ValidConfig(config, isUrl)
    ensures r.Fail? ==> r.error == ValidationFailure("Invalid configuration", ConfigErrors(config, isUrl))
  {
    var errors: FieldErrors := map[];
    errors := CheckApiKey(errors, Field(config, "apiKey"));
    errors := CheckApiSecret(errors, Field(config, "apiSecret"));
    errors := Flag(errors, "environment", UnknownEnvironment(Field(config, "environment")), EnvironmentInvalid);
    errors := Flag(errors, "baseUrl", BadBaseUrl(Field(config, "baseUrl"), isUrl), BaseUrlInvalid);
    errors := Flag(errors, "timeout", BadTimeout(Field(config, "timeout")), TimeoutInvalid);
    CollectFive(
      Check("apiKey", ApiKeyRule(Field(config, "apiKey"))),
      Check("apiSecret", ApiSecretRule(Field(config, "apiSecret"))),
      Check("environment", Report(UnknownEnvironment(Field(config, "environment")), EnvironmentInvalid)),
      Check("baseUrl", Report(BadBaseUrl(Field(config, "baseUrl"), isUrl), BaseUrlInvalid)),
      Check("timeout", Report(BadTimeout(Field(config, "timeout")), TimeoutInvalid)));
    if errors != map[] {
      r := Fail(ValidationFailure("Invalid configuration", errors));
    } else {
      r := Pass;
    }
  }

  /** Check `i` of `validateConfig` alone decides the entry of its field. */
  lemma ConfigReports(config: Record, isUrl: UrlParser, i: nat)
    requires i < 5
    ensures var c := ConfigChecks(config, isUrl)[i];
      && (c.field in ConfigErrors(config, isUrl) <==> c.failure.Some?)
      && (c.failure.Some? ==> ConfigErrors(config, isUrl)[c.field] == [c.failure.value])
  {
    ConfigChecksDistinct(config, isUrl);
    CollectReports(ConfigChecks(config, isUrl), i);
  }

  /**
   * The key and the secret are held to the same rule: each passes exactly when
   * `validateApiKey` accepts it.
   */
  lemma CredentialsAccepted(config: Record, isUrl: UrlParser)
    ensures "apiKey" !in ConfigErrors(config, isUrl) <==> ValidateApiKey(Field(config, "apiKey"))
    ensures "apiSecret" !in ConfigErrors(config, isUrl) <==> ValidateApiKey(Field(config, "apiSecret"))
  {
    ConfigReports(config, isUrl, 0);
    ConfigReports(config, isUrl, 1);
  }

  /** An accepted configuration names no environment, or exactly "sandbox" or "production". */
  lemma EnvironmentAccepted(config: Record, isUrl: UrlParser)
    ensures "environment" !in ConfigErrors(config, isUrl) <==>
      !Truthy(Field(config, "environment"))
      || config["environment"] == JStr("sandbox") || config["environment"] == JStr("production")
  {
    ConfigReports(config, isUrl, 2);
  }

  /** A timeout, when given, must be a positive number; `0` is present and rejected. */
  lemma TimeoutAccepted(config: Record, isUrl: UrlParser)
    ensures "timeout" !in ConfigErrors(config, isUrl) <==>
      "timeout" !in config || (config["timeout"].JNum? && config["timeout"].n > 0)
  {
    ConfigReports(config, isUrl, 4);
  }

  /** A base URL, when truthy, must be convertible to a string that parses. */
  lemma BaseUrlAccepted(config: Record, isUrl: UrlParser)
    ensures "baseUrl" !in ConfigErrors(config, isUrl) <==>
      !Truthy(Field(config, "baseUrl")) || (Convertible(config["baseUrl"]) && isUrl(ToJsString(config["baseUrl"]).value))
  {
    ConfigReports(config, isUrl, 3);
  }

  /** A configuration is accepted exactly when all five of its properties are. */
  lemma ValidConfigIff(config: Record, isUrl: UrlParser)
    ensures ValidConfig(config, isUrl) <==>
      && ValidateApiKey(Field(config, "apiKey"))
      && ValidateApiKey(Field(config, "apiSecret"))
      && !UnknownEnvironment(Field(config, "environment"))
      && !BadBaseUrl(Field(config, "baseUrl"), isUrl)
      && !BadTimeout(Field(config, "timeout"))
  {
    CollectFiveEmpty(
      Check("apiKey", ApiKeyRule(Field(config, "apiKey"))),
      Check("apiSecret", ApiSecretRule(Field(config, "apiSecret"))),
      Check("environment", Report(UnknownEnvironment(Field(config, "environment")), EnvironmentInvalid)),
      Check("baseUrl", Report(BadBaseUrl(Field(config, "baseUrl"), isUrl), BaseUrlInvalid)),
      Check("timeout", Report(BadTimeout(Field(config, "timeout")), TimeoutInvalid)));
    CredentialRules(Field(config, "apiKey"));
    CredentialRules(Field(config, "apiSecret"));
  }

  /** The key rule and the secret rule both pass exactly what `validateApiKey` accepts. */
  lemma CredentialRules(v: Value)
    ensures ApiKeyRule(v).None? <==> ValidateApiKey(v)
    ensures ApiSecretRule(v).None? <==> ValidateApiKey(v)
  {
  }

  // ---------------------------------------------------------------------------
  // getEnvironment, isProduction, isSandbox

  /** `getEnvironment()`: `this.config.environment || "sandbox"`. */
  function GetEnvironment(config: Record): (env: Json)
    ensures Truthy(Some(env))
    ensures Truthy(Field(config, "environment")) ==> env == config["environment"]
    ensures !Truthy(Field(config, "environment")) ==> env == JStr("sandbox")
  {
    var environment := Field(config, "environment");
    if Truthy(environment) then environment.value else JStr("sandbox")
  }

  /** `isProduction()`: the configured environment is exactly "production". */
  function IsProduction(config: Record): (b: bool)
    ensures b <==> Field(config, "environment") == Some(JStr("production"))
  {
    GetEnvironment(config) == JStr("production")
  }

  /** `isSandbox()`: the environment is "sandbox", or falsy and so defaulted to it. */
  function IsSandbox(config: Record): (b: bool)
    ensures b <==> !Truthy(Field(config, "environment")) || Field(config, "environment") == Some(JStr("sandbox"))
  {
    GetEnvironment(config) == JStr("sandbox")
  }

  /**
   * The two queries never both hold, and for an accepted configuration exactly one does;
   * the HTTP client's default host agrees with them.
   */
  lemma EnvironmentQueries(config: Record, isUrl: UrlParser)
    ensures !(IsProduction(config) && IsSandbox(config))
    ensures ValidConfig(config, isUrl) ==> IsProduction(config) != IsSandbox(config)
    ensures IsProduction(config) <==> DefaultBaseUrl(Field(config, "environment")) == ProductionUrl
  {
    if ValidConfig(config, isUrl) {
      EnvironmentAccepted(config, isUrl);
    }
    assert ProductionUrl[11] != SandboxUrl[11];
  }

  // ---------------------------------------------------------------------------
  // sandbox and production

  /** `{ apiKey, apiSecret, environment, ...options }`. */
  function FactoryConfig(apiKey: string, apiSecret: string, environment: string, options: Record): (config: Record)
    ensures forall k :: k in options ==> k in config && config[k] == options[k]
    ensures "environment" !in options ==> Field(config, "environment") == Some(JStr(environment))
    ensures "apiKey" !in options ==> Field(config, "apiKey") == Some(JStr(apiKey))
    ensures "apiSecret" !in options ==> Field(config, "apiSecret") == Some(JStr(apiSecret))
    ensures config.Keys == options.Keys + {"apiKey", "apiSecret", "environment"}
  {
    map["apiKey" := JStr(apiKey), "apiSecret" := JStr(apiSecret), "environment" := JStr(environment)] + options
  }

  /**
   * The options are spread last, so `TransVoucher.sandbox(k, s, {environment: "production"})`
   * builds a production configuration.
   */
  lemma OptionsOverrideEnvironment(apiKey: string, apiSecret: string, options: Record)
    requires "environment" in options && options["environment"] == JStr("production")
    ensures IsProduction(FactoryConfig(apiKey, apiSecret, "sandbox", options))
  {
  }

  /** Without overriding options, a factory's configuration is in the environment it names. */
  lemma FactoryEnvironment(apiKey: string, apiSecret: string, options: Record)
    requires "environment" !in options
    ensures IsSandbox(FactoryConfig(apiKey, apiSecret, "sandbox", options))
    ensures IsProduction(FactoryConfig(apiKey, apiSecret, "production", options))
  {
  }

  // ---------------------------------------------------------------------------
  // The TransVoucher object

  /**
   * A `TransVoucher` instance: its configuration and its HTTP client (the payment and
   * currency services only hold that client).
   */
  class TransVoucher {
    var config: Record
    var httpClient: HttpClient

    /** The client's axios instance was built from the client's own configuration. */
    predicate Valid()
      reads this, httpClient
    {
      httpClient.Valid()
    }

    /** What holds after the constructor: the client got this configuration, which passed. */
    predicate Consistent(isUrl: UrlParser)
      reads this, httpClient
    {
      Valid() && httpClient.config == config && ValidConfig(config, isUrl)
    }

    /** The fields a constructor sets, once the configuration has passed. */
    constructor Init(config: Record)
      ensures this.config == config && fresh(httpClient)
      ensures httpClient.config == config && Valid()
    {
      this.config := config;
      httpClient := new HttpClient(config);
    }

    /** `getBaseUrl()`, asked of the HTTP client. */
    function GetBaseUrl(): (url: Json)
      reads this, httpClient
      ensures Valid() ==> url == Settings(httpClient.config).baseURL
    {
      httpClient.GetBaseUrl()
    }

    /** Whether `updateConfig(newConfig)` validates: only `apiKey`, `environment` and `baseUrl` trigger it. */
    static predicate Revalidates(newConfig: Record) {
      "apiKey" in newConfig || "environment" in newConfig || "baseUrl" in newConfig
    }

    /**
     * `updateConfig(newConfig)`. With `apiKey`, `environment` or `baseUrl` supplied, the
     * merged configuration is validated and, if it passes, stored and handed to the client;
     * otherwise it is stored without validation and the client keeps its old one.
     */
    method UpdateConfig(newConfig: Record, isUrl: UrlParser) returns (r: Outcome<ValidationFailure>)
      requires Valid()
      modifies this, httpClient
      ensures Valid() && httpClient == old(httpClient)
      ensures Revalidates(newConfig) ==>
        && (r.Pass? <==> ValidConfig(old(config) + newConfig, isUrl))
        && (r.Pass? ==> config == old(config) + newConfig
                        && httpClient.config == old(httpClient.config) + (old(config) + newConfig))
        && (r.Fail? ==> r.error == ValidationFailure("Invalid configuration", ConfigErrors(old(config) + newConfig, isUrl))
                        && config == old(config) && httpClient.config == old(httpClient.config))
      ensures !Revalidates(newConfig) ==>
        r.Pass? && config == old(config) + newConfig && httpClient.config == old(httpClient.config)
    {
      if Revalidates(newConfig) {
        var updatedConfig := config + newConfig;
        r := ValidateConfig(updatedConfig, isUrl);
        if r.Pass? {
          config := updatedConfig;
          httpClient.UpdateConfig(updatedConfig);
        }
      } else {
        config := config + newConfig;
        r := Pass;
      }
    }

    /**
     * `switchEnvironment(environment)`: an `updateConfig` that always validates. From a
     * consistent instance, a known environment (or "") is taken and the instance stays
     * consistent; any other string is refused.
     */
    method SwitchEnvironment(environment: string, isUrl: UrlParser) returns (r: Outcome<ValidationFailure>)
      requires Valid()
      modifies this, httpClient
      ensures Valid() && httpClient == old(httpClient)
      ensures r.Pass? <==> ValidConfig(old(config)["environment" := JStr(environment)], isUrl)
      ensures r.Pass? ==> config == old(config)["environment" := JStr(environment)]
                          && httpClient.config == old(httpClient.config) + config
      ensures r.Fail? ==> r.error == ValidationFailure("Invalid configuration", ConfigErrors(old(config)["environment" := JStr(environment)], isUrl))
                          && config == old(config) && httpClient.config == old(httpClient.config)
      ensures old(Consistent(isUrl)) ==>
        && Consistent(isUrl)
        && (r.Pass? <==> environment == [] || environment in Environments)
        && (r.Pass? ==> (IsProduction(config) <==> environment == "production"))
    {
      var change := map["environment" := JStr(environment)];
      assert old(config) + change == old(config)["environment" := JStr(environment)];
      if Consistent(isUrl) {
        SwitchedConfig(config, environment, isUrl);
      }
      r := UpdateConfig(change, isUrl);
      if old(Consistent(isUrl)) && r.Pass? {
        MergeAbsorbs(old(httpClient.config), change);
      }
    }

    /**
     * `updateConfig` as evidently intended: every change is validated and reaches the
     * client, so the instance stays consistent whatever is changed.
     */
    method UpdateConfigValidated(newConfig: Record, isUrl: UrlParser) returns (r: Outcome<ValidationFailure>)
      requires Consistent(isUrl)
      modifies this, httpClient
      ensures Consistent(isUrl) && httpClient == old(httpClient)
      ensures r.Pass? <==> ValidConfig(old(config) + newConfig, isUrl)
      ensures r.Pass? ==> config == old(config) + newConfig
      ensures r.Fail? ==> r.error == ValidationFailure("Invalid configuration", ConfigErrors(old(config) + newConfig, isUrl))
                          && config == old(config)
    {
      var updatedConfig := config + newConfig;
      r := ValidateConfig(updatedConfig, isUrl);
      if r.Pass? {
        config := updatedConfig;
        httpClient.UpdateConfig(updatedConfig);
        MergeAbsorbs(old(config), newConfig);
      }
    }
  }

  /** Merging a configuration with its own update gives the update. */
  lemma MergeAbsorbs(a: Record, b: Record)
    ensures a + (a + b) == a + b
  {
  }

  /**
   * Setting a known environment, or the empty string (falsy, so unchecked), keeps an
   * accepted configuration accepted; any other string is refused.
   */
  lemma SwitchedConfig(config: Record, environment: string, isUrl: UrlParser)
    requires ValidConfig(config, isUrl)
    ensures ValidConfig(config["environment" := JStr(environment)], isUrl) <==> environment == [] || environment in Environments
  {
    var next := config["environment" := JStr(environment)];
    ValidConfigIff(config, isUrl);
    ValidConfigIff(next, isUrl);
    assert Field(next, "apiKey") == Field(config, "apiKey");
    assert Field(next, "apiSecret") == Field(config, "apiSecret");
    assert Field(next, "baseUrl") == Field(config, "baseUrl");
    assert Field(next, "timeout") == Field(config, "timeout");
    assert Field(next, "environment") == Some(JStr(environment));
    UnknownEnvironmentText(environment);
  }

  /**
   * As written, `updateConfig({apiSecret: ""})` does not validate: it stores a configuration
   * that `validateConfig` rejects, while the HTTP client goes on sending the old secret.
   */
  lemma SecretUpdateSkipsValidation(config: Record, isUrl: UrlParser)
    ensures !TransVoucher.Revalidates(map["apiSecret" := JStr("")])
    ensures !ValidConfig(config + map["apiSecret" := JStr("")], isUrl)
    ensures "apiSecret" in ConfigErrors(config + map["apiSecret" := JStr("")], isUrl)
    ensures ConfigErrors(config + map["apiSecret" := JStr("")], isUrl)["apiSecret"] == [ApiSecretRequired]
  {
    var next := config + map["apiSecret" := JStr("")];
    assert Field(next, "apiSecret") == Some(JStr(""));
    ConfigReports(next, isUrl, 1);
  }

  /** `TransVoucher.sandbox` and `TransVoucher.production` as the constructor sees them. */
  method Create(config: Record, isUrl: UrlParser) returns (r: Result<TransVoucher, ValidationFailure>)
    ensures r.Ok? <==> ValidConfig(config, isUrl)
    ensures r.Ok? ==> fresh(r.value) && fresh(r.value.httpClient) && r.value.config == config
                      && r.value.Consistent(isUrl)
    ensures r.Err? ==> r.error == ValidationFailure("Invalid configuration", ConfigErrors(config, isUrl))
  {
    var outcome := ValidateConfig(config, isUrl);
    if outcome.Fail? {
      return Err(outcome.error);
    }
    var sdk := new TransVoucher.Init(config);
    return Ok(sdk);
  }
}
