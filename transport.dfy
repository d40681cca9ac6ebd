/**
  The HTTP transport (`HttpClient`): base-URL normalisation, query and header
  shaping, the retry-with-backoff loop around `fetch`, and the conversion of
  the final attempt into a response envelope or a thrown error.

  `fetch` is not modelled: the outcome of each attempt is an oracle `Fetch`,
  a function of the request sent and of the attempt's index. Timers are not
  modelled either: the backoff sleeps are returned as a list of delays in
  milliseconds, and an abort by the timeout timer is one of the outcomes the
  oracle may produce.
 */
module Transport {
  import opened JsValues
  import opened Types

  /** A `Response` as far as the transport looks at it. `json` is what
      `response.json()` yields (None when the body is not JSON) and `text`
      what `response.text()` yields. */
  datatype Response = Response(
    status: int,
    statusText: string,
    headers: seq<(string, string)>,
    json: Option<JsonValue>,
    text: string)
  {
    /** `response.ok`: the status is in the range 200-299. */
    predicate Ok() {
      200 <= status <= 299
    }
  }

  /** The outcome of one `fetch` attempt: a response, or a thrown value
      (an abort by the timeout timer among them). */
  datatype Attempt = Responded(response: Response) | Threw(exception: Exception)

  /** The URL of a request: the base, the endpoint joined to it, and the
      search parameters in the order they were appended. */
  datatype Url = Url(base: string, endpoint: string, search: seq<(string, string)>)

  /** What `request` hands to `fetchWithRetry`. */
  datatype FetchRequest = FetchRequest(
    url: Url,
    verb: string,
    headers: map<string, string>,
    body: Option<Body>,
    timeout: int)

  /** The network: the outcome of attempt number k of a request. */
  type Fetch = (FetchRequest, nat) -> Attempt

  /** How `fetchWithRetry` ends: it returns a response, throws the timeout
      error, or rethrows a network exception. */
  datatype Terminal = Returned(response: Response) | TimedOut(message: string) | Rethrown(exception: Exception)

  /** A run of `fetchWithRetry`: how it ended and the delays it slept, in order. */
  datatype RetryRun = RetryRun(terminal: Terminal, delays: seq<nat>)

  // ---------------------------------------------------------------------------
  // Retry classification

  /** The `catch` recognises a timeout by an Error named "AbortError". */
  predicate IsAbort(e: Exception) {
    e.isErrorInstance && e.name == "AbortError"
  }

  /** A non-ok status that calls for a retry: a server error or the "no status" sentinel 0. */
  predicate RetryableStatus(status: int) {
    status >= 500 || status == 0
  }

  /** An attempt that is retried when retries remain: a non-ok response with a
      retryable status, or any thrown value other than an abort. */
  predicate Retryable(a: Attempt) {
    match a
    case Responded(resp) => !resp.Ok() && RetryableStatus(resp.status)
    case Threw(e) => !IsAbort(e)
  }

  function Pow2(k: nat): nat {
    if k == 0 then 1 else 2 * Pow2(k - 1)
  }

  /** `Math.pow(2, retryCount) * 1000`: the sleep before the retry that follows attempt `retryCount`. */
  function BackoffDelay(retryCount: nat): nat {
    Pow2(retryCount) * 1000
  }

  function TimeoutMessage(timeout: int): string {
    "Request timeout after " + IntToString(timeout) + "ms"
  }

  /** Attempt number k, with outcome `a`, is followed by another attempt. */
  predicate RetriedAfter(a: Attempt, k: nat, maxRetries: int) {
    Retryable(a) && k < maxRetries
  }

  /** How a run ends at attempt `a` once no retry follows it. */
  function Conclude(a: Attempt, timeoutMessage: string): Terminal {
    match a
    case Responded(resp) => Returned(resp)
    case Threw(e) => if IsAbort(e) then TimedOut(timeoutMessage) else Rethrown(e)
  }

  // ---------------------------------------------------------------------------
  // Request shaping

  /** `baseUrl.replace(/\/$/, '')`: one trailing '/' is removed, nothing else changes. */
  function StripTrailingSlash(url: string): (r: string)
    ensures |url| > 0 && url[|url| - 1] == '/' ==> r + "/" == url
    ensures !(|url| > 0 && url[|url| - 1] == '/') ==> r == url
  {
    if |url| > 0 && url[|url| - 1] == '/' then url[..|url| - 1] else url
  }

  /** A query value that is neither null nor undefined. */
  predicate Present(v: QueryValue) {
    !v.QNull? && !v.QUndefined?
  }

  /** `String(value)` for a query value. */
  function QueryString(v: QueryValue): string {
    match v
    case QStr(s) => s
    case QNum(n) => IntToString(n)
    case QBool(b) => if b then "true" else "false"
    case QNull => "null"
    case QUndefined => "undefined"
  }

  /** The search parameters appended for `entries`: each present entry once,
      as `(key, String(value))`, in entry order. */
  function FilterQuery(entries: seq<QueryEntry>): seq<(string, string)> {
    if entries == [] then []
    else
      var last := entries[|entries| - 1];
      FilterQuery(entries[..|entries| - 1]) +
        (if Present(last.1) then [(last.0, QueryString(last.1))] else [])
  }

  /** `{ ...defaults, ...perCall }`: a right-biased union. */
  function MergeHeaders(defaults: map<string, string>, perCall: Option<map<string, string>>): (r: map<string, string>)
    ensures perCall.None? ==> r == defaults
    ensures perCall.Some? ==> r.Keys == defaults.Keys + perCall.value.Keys
    ensures perCall.Some? ==> forall k :: k in perCall.value ==> r[k] == perCall.value[k]
    ensures forall k :: k in defaults && (perCall.None? || k !in perCall.value) ==> r[k] == defaults[k]
  {
    match perCall
    case None => defaults
    case Some(h) => defaults + h
  }

  /** The record filled by `response.headers.forEach`: a later pair for a name overwrites an earlier one. */
  function HeaderMap(pairs: seq<(string, string)>): map<string, string> {
    if pairs == [] then map[]
    else
      var last := pairs[|pairs| - 1];
      HeaderMap(pairs[..|pairs| - 1])[last.0 := last.1]
  }

  /** Fills the response-header record one pair at a time. */
  method CollectHeaders(pairs: seq<(string, string)>) returns (headers: map<string, string>)
    ensures headers == HeaderMap(pairs)
  {
    headers := map[];
    var i := 0;
    while i < |pairs|
      invariant 0 <= i <= |pairs|
      invariant headers == HeaderMap(pairs[..i])
    {
      assert pairs[..i + 1][..i] == pairs[..i];
      var (name, value) := pairs[i];
      headers := headers[name := value];
      i := i + 1;
    }
    assert pairs[..|pairs|] == pairs;
  }

  // ---------------------------------------------------------------------------
  // Response normalisation

  function FallbackMessage(status: int, statusText: string): string {
    "HTTP " + IntToString(status) + ": " + statusText
  }

  /** The `message` of a parsed error body, when the body parsed and that field is truthy. */
  function BodyMessage(resp: Response): (m: Option<JsonValue>)
    ensures m.Some? ==> resp.json.Some? && Property(resp.json.value, "message") == m && JsonTruthy(m.value)
    ensures m.None? && resp.json.Some? ==>
              var p := Property(resp.json.value, "message"); p.None? || !JsonTruthy(p.value)
  {
    match resp.json
    case None => None
    case Some(body) =>
      var p := Property(body, "message");
      if p.Some? && JsonTruthy(p.value) then p else None
  }

  /** The `ApiError` thrown for a non-ok final response. The message and the
      parsed body are taken only when the body parsed, its `message` is
      truthy and `String(message)` does not throw; if it throws, the `catch`
      keeps the generic message and no body. */
  function ErrorFromResponse(resp: Response): (e: PenpointError)
    ensures e.ApiError? && e.status == resp.status
    ensures var m := BodyMessage(resp);
            m.Some? && JsonToString(m.value).Some? ==>
              e.message == JsonToString(m.value).value && e.response == resp.json
    ensures var m := BodyMessage(resp);
            m.Some? && JsonToString(m.value).None? ==>
              e.message == FallbackMessage(resp.status, resp.statusText) && e.response == None
    ensures BodyMessage(resp).None? ==>
              e.message == FallbackMessage(resp.status, resp.statusText) && e.response == resp.json
  {
    var fallback := FallbackMessage(resp.status, resp.statusText);
    var m := BodyMessage(resp);
    if m.None? then ApiError(fallback, resp.status, resp.json)
    else
      var text := JsonToString(m.value);
      if text.None? then ApiError(fallback, resp.status, None)
      else ApiError(text.value, resp.status, resp.json)
  }

  /** The data of a successful response: its JSON, or its text when it is not JSON. */
  function PayloadOf(resp: Response): (p: Payload)
    ensures resp.json.Some? ==> p == JsonData(resp.json.value)
    ensures resp.json.None? ==> p == TextData(resp.text)
  {
    match resp.json
    case Some(v) => JsonData(v)
    case None => TextData(resp.text)
  }

  /** What `request` makes of the way `fetchWithRetry` ended. */
  function Settle(t: Terminal): Result<ApiResponse, PenpointError> {
    match t
    case Returned(resp) =>
      if !resp.Ok() then Failure(ErrorFromResponse(resp))
      else Success(ApiResponse(PayloadOf(resp), resp.status, resp.statusText, HeaderMap(resp.headers)))
    case TimedOut(m) => Failure(TimeoutError(m))
    case Rethrown(e) => Failure(NetworkError(e))
  }

  /** `response.data` of a transport call, errors passed through. */
  function DataOf(r: Result<ApiResponse, PenpointError>): (d: Result<Payload, PenpointError>)
    ensures d.Success? <==> r.Success?
    ensures r.Success? ==> d.value == r.value.data
    ensures r.Failure? ==> d.error == r.error
  {
    match r
    case Success(resp) => Success(resp.data)
    case Failure(e) => Failure(e)
  }

  // ---------------------------------------------------------------------------
  // The options the method wrappers pass to `request`

  function GetOptions(o: RequestOptions): RequestOptions {
    o.(verb := Some("GET"))
  }

  function PostOptions(body: Option<Body>, o: RequestOptions): RequestOptions {
    o.(verb := Some("POST"), body := body)
  }

  function PutOptions(body: Option<Body>, o: RequestOptions): RequestOptions {
    o.(verb := Some("PUT"), body := body)
  }

  function DeleteOptions(o: RequestOptions): RequestOptions {
    o.(verb := Some("DELETE"))
  }

  /** Per-call options carrying only headers. */
  function HeadersOnly(h: map<string, string>): RequestOptions {
    NoOptions.(headers := Some(h))
  }

  /** Per-call options carrying only a query. */
  function QueryOnly(q: seq<QueryEntry>): RequestOptions {
    NoOptions.(query := Some(q))
  }

  // ---------------------------------------------------------------------------

  class HttpClient {
    const baseUrl: string
    const defaultHeaders: map<string, string>
    const defaultTimeout: int
    const maxRetries: int

    /** Undefined arguments take the declared defaults ({}, 30000, 3); any
        value given, 0 included, is kept. The base URL loses one trailing '/'. */
    constructor(baseUrl: string, defaultHeaders: Option<map<string, string>>,
                defaultTimeout: Option<int>, maxRetries: Option<int>)
      ensures this.baseUrl == StripTrailingSlash(baseUrl)
      ensures this.defaultHeaders == defaultHeaders.GetOr(map[])
      ensures this.defaultTimeout == defaultTimeout.GetOr(30000)
      ensures this.maxRetries == maxRetries.GetOr(3)
    {
      this.baseUrl := StripTrailingSlash(baseUrl);
      this.defaultHeaders := defaultHeaders.GetOr(map[]);
      this.defaultTimeout := defaultTimeout.GetOr(30000);
      this.maxRetries := maxRetries.GetOr(3);
    }

    /** `fetchWithRetry(url, options, retryCount)`. The run is characterised by
        its last attempt, number `retryCount + |delays|`: every earlier attempt
        was retryable and had retries left, the last one is not retried, the
        run ends as that attempt dictates, and the delay slept after attempt k
        is 2^k seconds. */
    function FetchWithRetry(fetch: Fetch, req: FetchRequest, retryCount: nat): (run: RetryRun)
      ensures forall i :: 0 <= i < |run.delays| ==> run.delays[i] == BackoffDelay(retryCount + i)
      ensures forall k :: retryCount <= k < retryCount + |run.delays| ==> RetriedAfter(fetch(req, k), k, maxRetries)
      ensures !RetriedAfter(fetch(req, retryCount + |run.delays|), retryCount + |run.delays|, maxRetries)
      ensures run.terminal ==
                Conclude(fetch(req, retryCount + |run.delays|), TimeoutMessage(OrNumber(Some(req.timeout), defaultTimeout)))
      decreases maxRetries - retryCount
    {
      var attempt := fetch(req, retryCount);
      match attempt
      case Responded(resp) =>
        if resp.Ok() then
          RetryRun(Returned(resp), [])
        else if RetryableStatus(resp.status) && retryCount < maxRetries then
          var rest := FetchWithRetry(fetch, req, retryCount + 1);
          RetryRun(rest.terminal, [BackoffDelay(retryCount)] + rest.delays)
        else
          RetryRun(Returned(resp), [])
      case Threw(e) =>
        if IsAbort(e) then
          RetryRun(TimedOut(TimeoutMessage(OrNumber(Some(req.timeout), defaultTimeout))), [])
        else if retryCount < maxRetries then
          assert Retryable(attempt);
          var rest := FetchWithRetry(fetch, req, retryCount + 1);
          RetryRun(rest.terminal, [BackoffDelay(retryCount)] + rest.delays)
        else
          RetryRun(Rethrown(e), [])
    }

    /** The request `request(endpoint, o)` passes to `fetchWithRetry`. */
    function Prepared(endpoint: string, o: RequestOptions): FetchRequest {
      FetchRequest(
        Url(baseUrl, endpoint, if o.query.Some? then FilterQuery(o.query.value) else []),
        OrString(o.verb, "GET"),
        MergeHeaders(defaultHeaders, o.headers),
        o.body,
        OrNumber(o.timeout, defaultTimeout))
    }

    /** Builds the request, appending the search parameters one entry at a time. */
    method Prepare(endpoint: string, o: RequestOptions) returns (req: FetchRequest)
      ensures req == Prepared(endpoint, o)
    {
      var search: seq<(string, string)> := [];
      if o.query.Some? {
        var entries := o.query.value;
        var i := 0;
        while i < |entries|
          invariant 0 <= i <= |entries|
          invariant search == FilterQuery(entries[..i])
        {
          assert entries[..i + 1][..i] == entries[..i];
          var (key, value) := entries[i];
          if value != QNull && value != QUndefined {
            search := search + [(key, QueryString(value))];
          }
          i := i + 1;
        }
        assert entries[..|entries|] == entries;
      }
      var headers := MergeHeaders(defaultHeaders, o.headers);
      req := FetchRequest(Url(baseUrl, endpoint, search), OrString(o.verb, "GET"), headers,
                          o.body, OrNumber(o.timeout, defaultTimeout));
    }

    /** What `request(endpoint, o)` resolves to, or throws, against the network `fetch`. */
    function Outcome(endpoint: string, o: RequestOptions, fetch: Fetch): Result<ApiResponse, PenpointError> {
      Settle(FetchWithRetry(fetch, Prepared(endpoint, o), 0).terminal)
    }

    /** `request(endpoint, o)`. */
    method Request(endpoint: string, o: RequestOptions, fetch: Fetch) returns (r: Result<ApiResponse, PenpointError>)
      ensures r == Outcome(endpoint, o, fetch)
    {
      var req := Prepare(endpoint, o);
      var run := FetchWithRetry(fetch, req, 0);
      match run.terminal
      case Returned(resp) =>
        if !resp.Ok() {
          r := Failure(ErrorFromResponse(resp));
        } else {
          var data := PayloadOf(resp);
          var headers := CollectHeaders(resp.headers);
          r := Success(ApiResponse(data, resp.status, resp.statusText, headers));
        }
      case TimedOut(m) =>
        r := Failure(TimeoutError(m));
      case Rethrown(e) =>
        r := Failure(NetworkError(e));
    }

    method Get(endpoint: string, o: RequestOptions, fetch: Fetch) returns (r: Result<ApiResponse, PenpointError>)
      ensures r == Outcome(endpoint, GetOptions(o), fetch)
    {
      r := Request(endpoint, GetOptions(o), fetch);
    }

    method Post(endpoint: string, body: Option<Body>, o: RequestOptions, fetch: Fetch)
      returns (r: Result<ApiResponse, PenpointError>)
      ensures r == Outcome(endpoint, PostOptions(body, o), fetch)
    {
      r := Request(endpoint, PostOptions(body, o), fetch);
    }

    method Put(endpoint: string, body: Option<Body>, o: RequestOptions, fetch: Fetch)
      returns (r: Result<ApiResponse, PenpointError>)
      ensures r == Outcome(endpoint, PutOptions(body, o), fetch)
    {
      r := Request(endpoint, PutOptions(body, o), fetch);
    }

    method Delete(endpoint: string, o: RequestOptions, fetch: Fetch) returns (r: Result<ApiResponse, PenpointError>)
      ensures r == Outcome(endpoint, DeleteOptions(o), fetch)
    {
      r := Request(endpoint, DeleteOptions(o), fetch);
    }
  }
}
