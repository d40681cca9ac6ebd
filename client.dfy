/**
  The `PenpointClient`: API-key validation, configuration defaults chosen with
  `||`, the default headers, and one `HttpClient` shared by both resources.
 */
module Client {
  import opened JsValues
  import opened Types
  import opened Transport
  import opened Files
  import opened DiscreteReferences

  const DefaultBaseUrl := "https://api.penpoint.ai/v1"
  const DefaultTimeout := 30000
  const DefaultMaxRetries := 3
  /** What `getVersion()` returns. */
  const Version := "0.1.0"
  const DefaultUserAgent := "penpoint-js/" + Version

  /** The configuration a client is built with, after defaults. */
  datatype Settings = Settings(apiKey: string, baseUrl: string, timeout: int, maxRetries: int, userAgent: string)

  /** The headers sent on every call: the API key and the user agent, nothing else. */
  function DefaultHeaders(s: Settings): (h: map<string, string>)
    ensures h.Keys == {"x-api-key", "User-Agent"}
    ensures h["x-api-key"] == s.apiKey && h["User-Agent"] == s.userAgent
  {
    map["x-api-key" := s.apiKey, "User-Agent" := s.userAgent]
  }

  /** Validates the key and applies `config.x || default` to every other field.
      A resolved configuration never holds a falsy value. */
  function ResolveConfig(config: ClientConfig): (r: Result<Settings, PenpointError>)
    ensures r.Failure? <==> !StrTruthy(config.apiKey)
    ensures r.Failure? ==> r.error == ValidationError("API key is required")
    ensures r.Success? ==> r.value.apiKey == config.apiKey.value
    ensures r.Success? ==> r.value.baseUrl != "" && r.value.userAgent != ""
    ensures r.Success? ==> r.value.timeout != 0 && r.value.maxRetries != 0
    ensures r.Success? && StrTruthy(config.baseUrl) ==> r.value.baseUrl == config.baseUrl.value
    ensures r.Success? && !StrTruthy(config.baseUrl) ==> r.value.baseUrl == DefaultBaseUrl
    ensures r.Success? && NumTruthy(config.timeout) ==> r.value.timeout == config.timeout.value
    ensures r.Success? && !NumTruthy(config.timeout) ==> r.value.timeout == DefaultTimeout
    ensures r.Success? && NumTruthy(config.maxRetries) ==> r.value.maxRetries == config.maxRetries.value
    ensures r.Success? && !NumTruthy(config.maxRetries) ==> r.value.maxRetries == DefaultMaxRetries
    ensures r.Success? && StrTruthy(config.userAgent) ==> r.value.userAgent == config.userAgent.value
    ensures r.Success? && !StrTruthy(config.userAgent) ==> r.value.userAgent == DefaultUserAgent
  {
    if !StrTruthy(config.apiKey) then Failure(ValidationError("API key is required"))
    else Success(Settings(
      config.apiKey.value,
      OrString(config.baseUrl, DefaultBaseUrl),
      OrNumber(config.timeout, DefaultTimeout),
      OrNumber(config.maxRetries, DefaultMaxRetries),
      OrString(config.userAgent, DefaultUserAgent)))
  }

  class PenpointClient {
    const files: FilesResource
    const discreteReferences: DiscreteReferencesResource
    const httpClient: HttpClient

    /** Both resources use the client's own transport. */
    predicate SharesTransport() {
      files.client == httpClient && discreteReferences.client == httpClient
    }

    /** The body of the constructor after the key check: one transport built
        from the settings, handed to both resources. */
    constructor FromSettings(s: Settings)
      ensures httpClient.baseUrl == StripTrailingSlash(s.baseUrl)
      ensures httpClient.defaultHeaders == DefaultHeaders(s)
      ensures httpClient.defaultTimeout == s.timeout
      ensures httpClient.maxRetries == s.maxRetries
      ensures SharesTransport()
      ensures fresh(httpClient) && fresh(files) && fresh(discreteReferences)
    {
      var transport := new HttpClient(s.baseUrl, Some(DefaultHeaders(s)), Some(s.timeout), Some(s.maxRetries));
      httpClient := transport;
      files := new FilesResource(transport);
      discreteReferences := new DiscreteReferencesResource(transport);
    }

    /** `new PenpointClient(config)`: throws before building anything when the
        key is empty or missing. */
    static method Create(config: ClientConfig) returns (r: Result<PenpointClient, PenpointError>)
      ensures r.Failure? <==> !StrTruthy(config.apiKey)
      ensures r.Failure? ==> r.error == ValidationError("API key is required")
      ensures r.Success? ==>
                var s := ResolveConfig(config).value;
                fresh(r.value) && r.value.SharesTransport() &&
                r.value.httpClient.baseUrl == StripTrailingSlash(s.baseUrl) &&
                r.value.httpClient.defaultHeaders == DefaultHeaders(s) &&
                r.value.httpClient.defaultTimeout == s.timeout &&
                r.value.httpClient.maxRetries == s.maxRetries
    {
      var resolved := ResolveConfig(config);
      if resolved.Failure? {
        return Failure(resolved.error);
      }
      var client := new PenpointClient.FromSettings(resolved.value);
      r := Success(client);
    }

    /** `getHttpClient()`: the transport the resources use. */
    method GetHttpClient() returns (h: HttpClient)
      requires SharesTransport()
      ensures h == httpClient && h == files.client && h == discreteReferences.client
    {
      h := httpClient;
    }
  }
}
