/**
  Properties of the transport: the retry loop's schedule and exits, what a
  prepared request contains, and how the final response becomes the caller's
  result.
 */
module TransportProperties {
  import opened JsValues
  import opened Types
  import opened Transport

  // ---------------------------------------------------------------------------
  // Retry loop

  /** An ok response ends the run at once: no retry and no sleep follow. */
  lemma OkReturnsAtOnce(c: HttpClient, fetch: Fetch, req: FetchRequest, k: nat)
    requires fetch(req, k).Responded? && fetch(req, k).response.Ok()
    ensures c.FetchWithRetry(fetch, req, k) == RetryRun(Returned(fetch(req, k).response), [])
  {
  }

  /** A non-ok response whose status is neither >= 500 nor 0 (a 4xx, say) is
      returned as it is, whatever retries remain. */
  lemma NonRetryableStatusReturned(c: HttpClient, fetch: Fetch, req: FetchRequest, k: nat)
    requires fetch(req, k).Responded?
    requires !fetch(req, k).response.Ok() && !RetryableStatus(fetch(req, k).response.status)
    ensures c.FetchWithRetry(fetch, req, k) == RetryRun(Returned(fetch(req, k).response), [])
  {
  }

  /** An abort is turned into the timeout error and never retried, whatever
      the attempt number; the message names `options.timeout || defaultTimeout`. */
  lemma AbortNeverRetried(c: HttpClient, fetch: Fetch, req: FetchRequest, k: nat)
    requires fetch(req, k).Threw? && IsAbort(fetch(req, k).exception)
    ensures c.FetchWithRetry(fetch, req, k)
         == RetryRun(TimedOut(TimeoutMessage(OrNumber(Some(req.timeout), c.defaultTimeout))), [])
  {
  }

  /** A run from attempt 0 makes at most `maxRetries + 1` attempts (one when
      `maxRetries` is not positive), and so sleeps at most `maxRetries` times. */
  lemma AttemptsBounded(c: HttpClient, fetch: Fetch, req: FetchRequest)
    ensures var run := c.FetchWithRetry(fetch, req, 0);
            |run.delays| + 1 <= if c.maxRetries > 0 then c.maxRetries + 1 else 1
  {
    var run := c.FetchWithRetry(fetch, req, 0);
    if |run.delays| > 0 {
      var k := |run.delays| - 1;
      assert RetriedAfter(fetch(req, k), k, c.maxRetries);
    }
  }

  /** The delays slept by a run from attempt 0 are 1000, 2000, 4000, ... ms:
      the first is one second and each next one is twice the previous. */
  lemma DelaysDouble(c: HttpClient, fetch: Fetch, req: FetchRequest)
    ensures var run := c.FetchWithRetry(fetch, req, 0);
            (|run.delays| > 0 ==> run.delays[0] == 1000) &&
            forall i :: 0 <= i < |run.delays| - 1 ==> run.delays[i + 1] == 2 * run.delays[i]
  {
    var run := c.FetchWithRetry(fetch, req, 0);
    forall i | 0 <= i < |run.delays| - 1
      ensures run.delays[i + 1] == 2 * run.delays[i]
    {
      assert run.delays[i + 1] == BackoffDelay(i + 1);
    }
  }

  /** The reference description of a run: the first attempt `n` that is not
      followed by a retry. A run made exactly `n` sleeps and ends as attempt `n` dictates. */
  lemma RunStopsAtFirstFinalAttempt(c: HttpClient, fetch: Fetch, req: FetchRequest, n: nat)
    requires forall k :: 0 <= k < n ==> RetriedAfter(fetch(req, k), k, c.maxRetries)
    requires !RetriedAfter(fetch(req, n), n, c.maxRetries)
    ensures var run := c.FetchWithRetry(fetch, req, 0);
            |run.delays| == n &&
            run.terminal == Conclude(fetch(req, n), TimeoutMessage(OrNumber(Some(req.timeout), c.defaultTimeout)))
  {
    var run := c.FetchWithRetry(fetch, req, 0);
    var maxRetries := c.maxRetries;
    var m: nat := |run.delays|;
    var atM, atN := fetch(req, m), fetch(req, n);
    assert m < n ==> RetriedAfter(atM, m, maxRetries);
    assert m > n ==> RetriedAfter(atN, n, maxRetries);
  }

  /** Retryable failures followed by an ok response within the retry budget:
      the ok response is returned after sleeping 1s, 2s, ... once per failure. */
  lemma {:induction false} SucceedsAfterFailures(c: HttpClient, fetch: Fetch, req: FetchRequest, j: nat)
    requires j <= c.maxRetries
    requires forall k :: 0 <= k < j ==> Retryable(fetch(req, k))
    requires fetch(req, j).Responded? && fetch(req, j).response.Ok()
    ensures var run := c.FetchWithRetry(fetch, req, 0);
            run.terminal == Returned(fetch(req, j).response) &&
            |run.delays| == j &&
            forall i :: 0 <= i < j ==> run.delays[i] == Pow2(i) * 1000
  {
    forall k | 0 <= k < j
      ensures RetriedAfter(fetch(req, k), k, c.maxRetries)
    {
    }
    RunStopsAtFirstFinalAttempt(c, fetch, req, j);
  }

  /** When every attempt is retryable the run uses the whole budget: it sleeps
      `maxRetries` times, then returns the last failing response or rethrows
      the last exception. */
  lemma {:induction false} ExhaustedRetriesEndWithLastAttempt(c: HttpClient, fetch: Fetch, req: FetchRequest)
    requires c.maxRetries >= 0
    requires forall k :: 0 <= k <= c.maxRetries ==> Retryable(fetch(req, k))
    ensures var run := c.FetchWithRetry(fetch, req, 0);
            var last := fetch(req, c.maxRetries);
            |run.delays| == c.maxRetries &&
            (last.Responded? ==> run.terminal == Returned(last.response)) &&
            (last.Threw? ==> run.terminal == Rethrown(last.exception))
  {
    var n := c.maxRetries;
    forall k | 0 <= k < n
      ensures RetriedAfter(fetch(req, k), k, c.maxRetries)
    {
    }
    assert Retryable(fetch(req, n));
    RunStopsAtFirstFinalAttempt(c, fetch, req, n);
  }

  // ---------------------------------------------------------------------------
  // Scenarios

  function ServerError(): Response {
    Response(500, "Internal Server Error", [], None, "")
  }

  function Okay(): Response {
    Response(200, "OK", [("content-type", "application/json")], Some(JObj(map["id" := JNum(1)])), "")
  }

  /** Three 500 responses then a 200, with three retries: the 200 is returned
      after sleeping 1s, 2s and 4s. */
  lemma ThreeServerErrorsThenOk(c: HttpClient, req: FetchRequest)
    requires c.maxRetries == 3
    ensures var fetch: Fetch := (r, k) => if k < 3 then Responded(ServerError()) else Responded(Okay());
            c.FetchWithRetry(fetch, req, 0) == RetryRun(Returned(Okay()), [1000, 2000, 4000])
  {
    var fetch: Fetch := (r, k) => if k < 3 then Responded(ServerError()) else Responded(Okay());
    forall k | 0 <= k < 3 ensures Retryable(fetch(req, k)) {
      assert fetch(req, k) == Responded(ServerError());
    }
    assert fetch(req, 3) == Responded(Okay());
    SucceedsAfterFailures(c, fetch, req, 3);
    var run := c.FetchWithRetry(fetch, req, 0);
    assert run.delays == [Pow2(0) * 1000, Pow2(1) * 1000, Pow2(2) * 1000];
  }

  /** With no retries a single 500 is returned without a sleep, and the caller
      gets an ApiError with status 500. */
  lemma NoRetriesSingleServerError(c: HttpClient, endpoint: string, o: RequestOptions)
    requires c.maxRetries == 0
    ensures var fetch: Fetch := (r, k) => Responded(ServerError());
            c.FetchWithRetry(fetch, c.Prepared(endpoint, o), 0) == RetryRun(Returned(ServerError()), []) &&
            c.Outcome(endpoint, o, fetch).Failure? &&
            c.Outcome(endpoint, o, fetch).error.ApiError? &&
            c.Outcome(endpoint, o, fetch).error.status == 500
  {
  }

  // ---------------------------------------------------------------------------
  // Messages

  /** The timeout message carries the timeout: it reads back from between the fixed text. */
  lemma TimeoutMessageNamesTimeout(timeout: int)
    ensures var m := TimeoutMessage(timeout);
            var prefix := "Request timeout after ";
            |m| == |prefix| + |IntToString(timeout)| + 2 &&
            m[..|prefix|] == prefix &&
            m[|prefix|..|m| - 2] == IntToString(timeout) &&
            m[|m| - 2..] == "ms" &&
            (m[|prefix|] == '-' ==> AllDigits(m[|prefix| + 1..|m| - 2])) &&
            (m[|prefix|] != '-' ==> AllDigits(m[|prefix|..|m| - 2])) &&
            ParseInt(m[|prefix|..|m| - 2]) == timeout
  {
    IntToStringRoundTrip(timeout);
    var m := TimeoutMessage(timeout);
    assert m[|"Request timeout after "|..|m| - 2] == IntToString(timeout);
  }

  /** The fallback message names the status and the status text: after
      "HTTP " comes the status's rendering, which holds no ':', then ": " and
      the status text. So the status is read back from the characters before
      the first ':' that follows "HTTP ". */
  lemma FallbackMessageNamesStatus(status: int, statusText: string)
    ensures var m := FallbackMessage(status, statusText);
            var digits := IntToString(status);
            |m| == 5 + |digits| + 2 + |statusText| &&
            m[..5] == "HTTP " &&
            (forall i :: 5 <= i < 5 + |digits| ==> m[i] != ':') &&
            m[5 + |digits|..] == ": " + statusText &&
            (m[5] == '-' ==> AllDigits(m[6..5 + |digits|])) &&
            (m[5] != '-' ==> AllDigits(m[5..5 + |digits|])) &&
            ParseInt(m[5..5 + |digits|]) == status
  {
    IntToStringRoundTrip(status);
    var digits := IntToString(status);
    var m := FallbackMessage(status, statusText);
    assert m == "HTTP " + digits + ": " + statusText;
    assert m[5..5 + |digits|] == digits;
    assert m[5 + |digits|..] == ": " + statusText;
    forall i | 5 <= i < 5 + |digits|
      ensures m[i] != ':'
    {
      assert m[i] == digits[i - 5];
      if i > 5 {
        assert digits[1..][i - 6] == digits[i - 5];
      }
    }
  }

  // The decimal renderings of the statuses used in the examples below.

  lemma Renders400()
    ensures IntToString(400) == "400"
  {
    assert NatToString(4) == "4";
    assert NatToString(40) == "40";
  }

  lemma Renders404()
    ensures IntToString(404) == "404"
  {
    assert NatToString(4) == "4";
    assert NatToString(40) == "40";
  }

  lemma Renders503()
    ensures IntToString(503) == "503"
  {
    assert NatToString(5) == "5";
    assert NatToString(50) == "50";
  }

  /** A 404 whose body parsed to `{"message": "not found"}` throws an ApiError
      with that message and status 404. */
  lemma NotFoundWithMessage()
    ensures var resp := Response(404, "Not Found", [], Some(JObj(map["message" := JStr("not found")])), "");
            ErrorFromResponse(resp) == ApiError("not found", 404, resp.json)
  {
  }

  /** A 404 whose body did not parse throws an ApiError with the generic message. */
  lemma NotFoundUnparsable()
    ensures var resp := Response(404, "Not Found", [], None, "<html>");
            ErrorFromResponse(resp) == ApiError("HTTP 404: Not Found", 404, None)
  {
    Renders404();
  }

  /** A falsy `message` field (here the empty string) also falls back to the generic message. */
  lemma EmptyMessageFallsBack()
    ensures var resp := Response(503, "Service Unavailable", [], Some(JObj(map["message" := JStr("")])), "");
            ErrorFromResponse(resp).message == "HTTP 503: Service Unavailable"
  {
    var resp := Response(503, "Service Unavailable", [], Some(JObj(map["message" := JStr("")])), "");
    assert Property(resp.json.value, "message") == Some(JStr(""));
    assert BodyMessage(resp) == None;
    Renders503();
    assert FallbackMessage(503, "Service Unavailable") == "HTTP 503: Service Unavailable";
  }

  /** A `message` that `String` cannot convert (an object with its own
      `toString` key) makes the conversion throw inside the `try`: the
      generic message stays and no body is attached. */
  lemma UnconvertibleMessageFallsBack()
    ensures var body := JObj(map["message" := JObj(map["toString" := JStr("x")])]);
            var resp := Response(400, "Bad Request", [], Some(body), "");
            ErrorFromResponse(resp) == ApiError("HTTP 400: Bad Request", 400, None)
  {
    var inner := JObj(map["toString" := JStr("x")]);
    var resp := Response(400, "Bad Request", [], Some(JObj(map["message" := inner])), "");
    assert Property(resp.json.value, "message") == Some(inner);
    assert BodyMessage(resp) == Some(inner);
    assert JsonToString(inner).None?;
    Renders400();
  }

  // ---------------------------------------------------------------------------
  // Query parameters

  /** A pair is appended exactly when some entry with a present value yields it. */
  lemma {:induction false} FilterQueryMembership(entries: seq<QueryEntry>, key: string, value: string)
    ensures (key, value) in FilterQuery(entries) <==>
            exists i :: 0 <= i < |entries| && entries[i].0 == key && Present(entries[i].1) &&
                        QueryString(entries[i].1) == value
  {
    if entries != [] {
      var init := entries[..|entries| - 1];
      FilterQueryMembership(init, key, value);
      if (key, value) in FilterQuery(entries) && (key, value) !in FilterQuery(init) {
        assert entries[|entries| - 1].0 == key;
      }
      if exists i :: 0 <= i < |entries| && entries[i].0 == key && Present(entries[i].1) &&
                     QueryString(entries[i].1) == value {
        var i :| 0 <= i < |entries| && entries[i].0 == key && Present(entries[i].1) &&
                 QueryString(entries[i].1) == value;
        if i < |entries| - 1 {
          assert init[i] == entries[i];
        }
      }
      forall i | 0 <= i < |init|
        ensures init[i] == entries[i]
      {
      }
    }
  }

  /** Entry order is kept: filtering a concatenation concatenates the filtered parts. */
  lemma {:induction false} FilterQueryConcat(a: seq<QueryEntry>, b: seq<QueryEntry>)
    ensures FilterQuery(a + b) == FilterQuery(a) + FilterQuery(b)
    decreases |b|
  {
    if b == [] {
      assert a + b == a;
    } else {
      var b' := b[..|b| - 1];
      assert (a + b)[..|a + b| - 1] == a + b';
      FilterQueryConcat(a, b');
    }
  }

  /** The number of pairs whose key is `key`. */
  function KeyCount(pairs: seq<(string, string)>, key: string): nat {
    if pairs == [] then 0
    else KeyCount(pairs[..|pairs| - 1], key) + (if pairs[|pairs| - 1].0 == key then 1 else 0)
  }

  predicate UniqueKeys(entries: seq<QueryEntry>) {
    forall i, j :: 0 <= i < j < |entries| ==> entries[i].0 != entries[j].0
  }

  /** With the distinct keys of an object, a key with a present value is
      appended exactly once and a key with a null or undefined value never. */
  lemma {:induction false} FilterQueryKeyOnce(entries: seq<QueryEntry>, key: string)
    requires UniqueKeys(entries)
    ensures KeyCount(FilterQuery(entries), key) ==
            if exists i :: 0 <= i < |entries| && entries[i].0 == key && Present(entries[i].1) then 1 else 0
  {
    if entries != [] {
      var init := entries[..|entries| - 1];
      var last := entries[|entries| - 1];
      assert UniqueKeys(init) by {
        forall i, j | 0 <= i < j < |init| ensures init[i].0 != init[j].0 {
          assert init[i] == entries[i] && init[j] == entries[j];
        }
      }
      FilterQueryKeyOnce(init, key);
      var added := if Present(last.1) then [(last.0, QueryString(last.1))] else [];
      assert FilterQuery(entries) == FilterQuery(init) + added;
      KeyCountConcat(FilterQuery(init), added, key);
      if last.0 == key {
        forall i | 0 <= i < |init| ensures init[i].0 != key {
          assert init[i] == entries[i];
        }
      } else {
        if exists i :: 0 <= i < |entries| && entries[i].0 == key && Present(entries[i].1) {
          var i :| 0 <= i < |entries| && entries[i].0 == key && Present(entries[i].1);
          assert init[i] == entries[i];
        }
        if exists i :: 0 <= i < |init| && init[i].0 == key && Present(init[i].1) {
          var i :| 0 <= i < |init| && init[i].0 == key && Present(init[i].1);
          assert init[i] == entries[i];
        }
      }
    }
  }

  lemma {:induction false} KeyCountConcat(a: seq<(string, string)>, b: seq<(string, string)>, key: string)
    ensures KeyCount(a + b, key) == KeyCount(a, key) + KeyCount(b, key)
    decreases |b|
  {
    if b == [] {
      assert a + b == a;
    } else {
      var b' := b[..|b| - 1];
      assert (a + b)[..|a + b| - 1] == a + b';
      KeyCountConcat(a, b', key);
    }
  }

  // ---------------------------------------------------------------------------
  // Headers

  /** A response header name is in the record exactly when some pair names it. */
  lemma {:induction false} HeaderMapKeys(pairs: seq<(string, string)>, name: string)
    ensures name in HeaderMap(pairs) <==> exists i :: 0 <= i < |pairs| && pairs[i].0 == name
  {
    if pairs != [] {
      var init := pairs[..|pairs| - 1];
      HeaderMapKeys(init, name);
      forall i | 0 <= i < |init| ensures init[i] == pairs[i] {}
    }
  }

  /** The record holds, for each name, the value of the last pair with that name. */
  lemma {:induction false} HeaderMapLastWins(pairs: seq<(string, string)>, i: nat)
    requires i < |pairs|
    requires forall j :: i < j < |pairs| ==> pairs[j].0 != pairs[i].0
    ensures pairs[i].0 in HeaderMap(pairs) && HeaderMap(pairs)[pairs[i].0] == pairs[i].1
  {
    if i < |pairs| - 1 {
      var init := pairs[..|pairs| - 1];
      assert init[i] == pairs[i];
      forall j | i < j < |init| ensures init[j].0 != init[i].0 {
        assert init[j] == pairs[j];
      }
      HeaderMapLastWins(init, i);
    }
  }

  // ---------------------------------------------------------------------------
  // Prepared requests

  /** A per-call header wins over the default of the same name, the API key
      header included; every other default is sent unchanged. */
  lemma PerCallHeadersWin(c: HttpClient, endpoint: string, o: RequestOptions, name: string)
    requires o.headers.Some?
    ensures name in o.headers.value ==> c.Prepared(endpoint, o).headers[name] == o.headers.value[name]
    ensures name in c.defaultHeaders && name !in o.headers.value ==>
              c.Prepared(endpoint, o).headers[name] == c.defaultHeaders[name]
    ensures c.Prepared(endpoint, o).headers.Keys == c.defaultHeaders.Keys + o.headers.value.Keys
  {
  }

  /** Without a method or a timeout the request is a GET with the default timeout;
      a timeout of 0 also falls back to the default. */
  lemma PreparedDefaults(c: HttpClient, endpoint: string, o: RequestOptions)
    requires o.verb.None? && (o.timeout.None? || o.timeout == Some(0))
    ensures c.Prepared(endpoint, o).verb == "GET"
    ensures c.Prepared(endpoint, o).timeout == c.defaultTimeout
  {
  }

  /** The method wrappers force their method and keep the caller's headers,
      timeout and (for POST and PUT) pass the given body. */
  lemma WrappersForceMethod(c: HttpClient, endpoint: string, body: Option<Body>, o: RequestOptions)
    ensures c.Prepared(endpoint, GetOptions(o)).verb == "GET"
    ensures c.Prepared(endpoint, PostOptions(body, o)).verb == "POST"
    ensures c.Prepared(endpoint, PutOptions(body, o)).verb == "PUT"
    ensures c.Prepared(endpoint, DeleteOptions(o)).verb == "DELETE"
    ensures c.Prepared(endpoint, PostOptions(body, o)).body == body
    ensures c.Prepared(endpoint, PutOptions(body, o)).body == body
    ensures c.Prepared(endpoint, GetOptions(o)).headers == c.Prepared(endpoint, o).headers
    ensures c.Prepared(endpoint, PostOptions(body, o)).headers == c.Prepared(endpoint, o).headers
    ensures c.Prepared(endpoint, PutOptions(body, o)).headers == c.Prepared(endpoint, o).headers
    ensures c.Prepared(endpoint, DeleteOptions(o)).headers == c.Prepared(endpoint, o).headers
    ensures c.Prepared(endpoint, GetOptions(o)).timeout == c.Prepared(endpoint, o).timeout
    ensures c.Prepared(endpoint, PostOptions(body, o)).timeout == c.Prepared(endpoint, o).timeout
    ensures c.Prepared(endpoint, PutOptions(body, o)).timeout == c.Prepared(endpoint, o).timeout
    ensures c.Prepared(endpoint, DeleteOptions(o)).timeout == c.Prepared(endpoint, o).timeout
    ensures c.Prepared(endpoint, GetOptions(o)).url == c.Prepared(endpoint, o).url
    ensures c.Prepared(endpoint, PostOptions(body, o)).url == c.Prepared(endpoint, o).url
    ensures c.Prepared(endpoint, PutOptions(body, o)).url == c.Prepared(endpoint, o).url
    ensures c.Prepared(endpoint, DeleteOptions(o)).url == c.Prepared(endpoint, o).url
  {
  }

  /** The base URL keeps everything but one trailing '/': "…/v1//" becomes "…/v1/". */
  lemma StripRemovesOnlyOneSlash()
    ensures StripTrailingSlash("https://api.penpoint.ai/v1//") == "https://api.penpoint.ai/v1/"
    ensures StripTrailingSlash("https://api.penpoint.ai/v1") == "https://api.penpoint.ai/v1"
  {
  }

  // ---------------------------------------------------------------------------
  // The caller's result

  /** `request` succeeds exactly when the run returned an ok response; the
      envelope then carries that response's status, text, data and headers. */
  lemma OutcomeSuccessIffOk(c: HttpClient, endpoint: string, o: RequestOptions, fetch: Fetch)
    ensures var t := c.FetchWithRetry(fetch, c.Prepared(endpoint, o), 0).terminal;
            var r := c.Outcome(endpoint, o, fetch);
            (r.Success? <==> t.Returned? && t.response.Ok()) &&
            (r.Success? ==> r.value == ApiResponse(PayloadOf(t.response), t.response.status,
                                                   t.response.statusText, HeaderMap(t.response.headers))) &&
            (r.Success? && t.response.json.Some? ==> r.value.data == JsonData(t.response.json.value)) &&
            (r.Success? && t.response.json.None? ==> r.value.data == TextData(t.response.text))
  {
  }

  /** A non-ok final response becomes an ApiError with its status; a timeout
      and a network exception pass through as themselves. */
  lemma OutcomeErrors(c: HttpClient, endpoint: string, o: RequestOptions, fetch: Fetch)
    ensures var t := c.FetchWithRetry(fetch, c.Prepared(endpoint, o), 0).terminal;
            var r := c.Outcome(endpoint, o, fetch);
            (t.Returned? && !t.response.Ok() ==> r == Failure(ErrorFromResponse(t.response)) && r.error.status == t.response.status) &&
            (t.TimedOut? ==> r == Failure(TimeoutError(t.message))) &&
            (t.Rethrown? ==> r == Failure(NetworkError(t.exception)))
  {
  }
}
