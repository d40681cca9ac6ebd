/**
  Properties of the resources and of client configuration: what each
  resource call puts on the wire, which validation errors it raises, and
  which configuration values reach the transport.
 */
module ResourceProperties {
  import opened JsValues
  import opened Types
  import opened Transport
  import opened TransportProperties
  import opened Files
  import opened DiscreteReferences
  import opened Client

  // ---------------------------------------------------------------------------
  // Files

  /** The search parameters of `list`: `limit` then `offset`, each only when defined. */
  lemma ListSearch(params: PaginationParams)
    ensures FilterQuery(ListQuery(params)) ==
            (if params.limit.Some? then [("limit", IntToString(params.limit.value))] else []) +
            (if params.offset.Some? then [("offset", IntToString(params.offset.value))] else [])
  {
    var a: seq<QueryEntry> := if params.limit.Some? then [("limit", QNum(params.limit.value))] else [];
    var b: seq<QueryEntry> := if params.offset.Some? then [("offset", QNum(params.offset.value))] else [];
    assert ListQuery(params) == a + b;
    FilterQueryConcat(a, b);
    if a != [] {
      assert a[..0] == [];
    }
    if b != [] {
      assert b[..0] == [];
    }
  }

  /** `list` sends GET /files; its URL carries `limit` exactly when the limit is
      defined, with the number's decimal text, and likewise `offset`. */
  lemma ListSendsPagination(c: HttpClient, params: PaginationParams, value: string)
    ensures var req := c.Prepared("/files", GetOptions(QueryOnly(ListQuery(params))));
            req.verb == "GET" && req.url.endpoint == "/files" &&
            (("limit", value) in req.url.search <==>
               params.limit.Some? && value == IntToString(params.limit.value)) &&
            (("offset", value) in req.url.search <==>
               params.offset.Some? && value == IntToString(params.offset.value))
  {
    ListSearch(params);
    assert "limit" != "offset";
  }

  /** Different file ids address different paths. */
  lemma FilePathInjective(a: int, b: int)
    requires FilePath(a) == FilePath(b)
    ensures a == b
  {
    assert FilePath(a)[7..] == IntToString(a);
    assert FilePath(b)[7..] == IntToString(b);
    IntToStringInjective(a, b);
  }

  /** `update` sends PUT /files/<id> with the JSON content type over the
      default headers, and a body holding the summary and, when truthy, the
      expiration date. */
  lemma UpdateSendsPut(c: HttpClient, fileId: int, summary: string, expirationDate: Option<string>)
    ensures var body := UpdateBody(summary, expirationDate);
            var req := c.Prepared(FilePath(fileId), PutOptions(Some(JsonText(body)), HeadersOnly(JsonContentType)));
            req.verb == "PUT" && req.url.endpoint == FilePath(fileId) && req.url.search == [] &&
            req.headers["Content-Type"] == "application/json" &&
            req.body == Some(JsonText(body)) &&
            ("expirationDate" in body <==> StrTruthy(expirationDate))
  {
  }

  /** `upload` posts its form to /files with no extra headers: only the defaults are sent. */
  lemma UploadSendsPost(c: HttpClient, request: FileUploadRequest)
    requires UploadForm(request).Success?
    ensures var req := c.Prepared("/files", PostOptions(Some(Multipart(UploadForm(request).value)), NoOptions));
            req.verb == "POST" && req.url.endpoint == "/files" &&
            req.headers == c.defaultHeaders && req.timeout == c.defaultTimeout
  {
  }

  /** `delete` and `get` address /files/<id> with DELETE and GET. */
  lemma DeleteAndGetAddressFile(c: HttpClient, fileId: int)
    ensures c.Prepared(FilePath(fileId), DeleteOptions(NoOptions)).verb == "DELETE"
    ensures c.Prepared(FilePath(fileId), GetOptions(NoOptions)).verb == "GET"
    ensures c.Prepared(FilePath(fileId), DeleteOptions(NoOptions)).url == Url(c.baseUrl, FilePath(fileId), [])
    ensures c.Prepared(FilePath(fileId), GetOptions(NoOptions)).url == Url(c.baseUrl, FilePath(fileId), [])
  {
  }

  /** `list` with both pagination fields sends them as `limit` then `offset`. */
  lemma ListQueryOrder(c: HttpClient)
    ensures c.Prepared("/files", GetOptions(QueryOnly(ListQuery(PaginationParams(Some(10), Some(20)))))).url.search
            == [("limit", "10"), ("offset", "20")]
  {
    assert IntToString(10) == "10" by {
      assert NatToString(1) == "1";
    }
    assert IntToString(20) == "20" by {
      assert NatToString(2) == "2";
    }
    ListSearch(PaginationParams(Some(10), Some(20)));
  }

  // ---------------------------------------------------------------------------
  // Discrete references

  /** The three tiers send the same request but for its endpoint, and the
      three endpoints differ, so the three requests are distinct. */
  lemma TiersDifferOnlyInEndpoint(c: HttpClient, req: DiscreteReferenceRequest)
    ensures var basic := c.Prepared(BasicPath, SearchOptions(req));
            var standard := c.Prepared(StandardPath, SearchOptions(req));
            var advanced := c.Prepared(AdvancedPath, SearchOptions(req));
            basic.url.endpoint == "/discrete-references/basic" &&
            standard.url.endpoint == "/discrete-references/standard" &&
            advanced.url.endpoint == "/discrete-references/advanced" &&
            basic == standard.(url := standard.url.(endpoint := BasicPath)) &&
            advanced == standard.(url := standard.url.(endpoint := AdvancedPath)) &&
            basic != standard && standard != advanced && basic != advanced
  {
  }

  /** An empty colour and an absent one are the same request. */
  lemma EmptyMarkupColorIsAbsent(fileId: int, prompt: string, markupFile: bool)
    ensures SearchRequest(fileId, prompt, markupFile, Some("")) == SearchRequest(fileId, prompt, markupFile, None)
  {
  }

  /** A search with a prompt posts the JSON body with the JSON content type. */
  lemma SearchSendsPost(c: HttpClient, endpoint: string, req: DiscreteReferenceRequest)
    ensures var sent := c.Prepared(endpoint, SearchOptions(req));
            sent.verb == "POST" && sent.url.endpoint == endpoint &&
            sent.headers["Content-Type"] == "application/json" &&
            sent.body == Some(JsonText(SearchBody(req)))
  {
  }

  /** An empty prompt fails the same way whatever the network would do: the
      transport is not consulted. */
  lemma EmptyPromptIgnoresNetwork(d: DiscreteReferencesResource, endpoint: string, req: DiscreteReferenceRequest,
                                  fetch1: Fetch, fetch2: Fetch)
    requires req.prompt == ""
    ensures d.SearchOutcome(endpoint, req, fetch1) == d.SearchOutcome(endpoint, req, fetch2)
                                                 == Failure(ValidationError("Prompt is required"))
  {
  }

  /** A successful search returns the transport's data unchanged. */
  lemma SearchReturnsData(d: DiscreteReferencesResource, endpoint: string, req: DiscreteReferenceRequest, fetch: Fetch)
    requires req.prompt != ""
    ensures var t := d.client.Outcome(endpoint, SearchOptions(req), fetch);
            var r := d.SearchOutcome(endpoint, req, fetch);
            (r.Success? <==> t.Success?) && (t.Success? ==> r.value == t.value.data)
  {
  }

  // ---------------------------------------------------------------------------
  // Client configuration

  /** With only a key, the client uses the documented defaults. */
  lemma DefaultConfiguration(apiKey: string)
    requires apiKey != ""
    ensures ResolveConfig(ClientConfig(Some(apiKey), None, None, None, None))
         == Success(Settings(apiKey, "https://api.penpoint.ai/v1", 30000, 3, "penpoint-js/0.1.0"))
  {
    assert DefaultUserAgent == "penpoint-js/0.1.0";
  }

  /** `||` treats 0 and "" as missing, field by field: each falsy field
      takes its own default whatever the other fields hold. */
  lemma FalsyConfigFallsBack(config: ClientConfig)
    requires StrTruthy(config.apiKey)
    ensures var s := ResolveConfig(config).value;
            (config.baseUrl == None || config.baseUrl == Some("") ==> s.baseUrl == "https://api.penpoint.ai/v1") &&
            (config.timeout == None || config.timeout == Some(0) ==> s.timeout == 30000) &&
            (config.maxRetries == None || config.maxRetries == Some(0) ==> s.maxRetries == 3) &&
            (config.userAgent == None || config.userAgent == Some("") ==> s.userAgent == "penpoint-js/0.1.0")
  {
    assert DefaultUserAgent == "penpoint-js/0.1.0";
  }

  /** Each supplied truthy value reaches the settings unchanged, whatever the
      other fields hold. */
  lemma SuppliedConfigPassesThrough(config: ClientConfig)
    requires StrTruthy(config.apiKey)
    ensures var s := ResolveConfig(config).value;
            s.apiKey == config.apiKey.value &&
            (StrTruthy(config.baseUrl) ==> s.baseUrl == config.baseUrl.value) &&
            (NumTruthy(config.timeout) ==> s.timeout == config.timeout.value) &&
            (NumTruthy(config.maxRetries) ==> s.maxRetries == config.maxRetries.value) &&
            (StrTruthy(config.userAgent) ==> s.userAgent == config.userAgent.value)
  {
  }

  /** A partly supplied configuration: the base URL is kept while
      `maxRetries: 0` and the missing fields take their defaults. */
  lemma MixedConfigResolvesPerField()
    ensures ResolveConfig(ClientConfig(Some("k"), Some("https://x"), None, Some(0), None))
         == Success(Settings("k", "https://x", 30000, 3, "penpoint-js/0.1.0"))
  {
    assert DefaultUserAgent == "penpoint-js/0.1.0";
  }

  /** A missing or empty key is rejected with the validation error. */
  lemma MissingKeyRejected(config: ClientConfig)
    requires config.apiKey == None || config.apiKey == Some("")
    ensures ResolveConfig(config) == Failure(ValidationError("API key is required"))
  {
  }

  /** A per-call `x-api-key` header replaces the client's key for that call only. */
  lemma PerCallApiKeyWins(c: HttpClient, s: Settings, endpoint: string, key: string)
    requires c.defaultHeaders == DefaultHeaders(s)
    ensures var o := HeadersOnly(map["x-api-key" := key]);
            c.Prepared(endpoint, o).headers == map["x-api-key" := key, "User-Agent" := s.userAgent]
  {
    var h := c.Prepared(endpoint, HeadersOnly(map["x-api-key" := key])).headers;
    assert h.Keys == {"x-api-key", "User-Agent"};
  }
}
