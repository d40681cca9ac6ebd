# penpoint-js client core, modelled in Dafny

penpoint-js is a TypeScript client for the Penpoint REST API. A
`PenpointClient` checks its API key and fills its configuration with defaults
chosen by `||`. It then builds one `HttpClient` and shares it between two
resources. `files` lists, uploads, updates, deletes and fetches files.
`discreteReferences` runs reference searches in three tiers. The
`HttpClient` does the following:

- It normalises the base URL.
- It appends the non-null query entries.
- It merges the default headers with the per-call headers.
- It retries 5xx responses, status 0 and network exceptions with exponential
  backoff.
- It turns a timeout abort into a timeout error.
- It throws an `ApiError` for a non-ok final response.
- It wraps a successful response in `{ data, status, statusText, headers }`.

The model has these modules:

- `JsValues` holds the JavaScript value semantics the client relies on:
  truthiness, `||`, `String(x)`, and decimal rendering with its inverse.
- `Types` holds the data shapes: request options, errors, configuration and
  resource requests.
- `Transport` models `src/http-client.ts`. `HttpClient` is a class with
  read-only fields. `fetch` is an oracle `Fetch = (FetchRequest, nat) ->
  Attempt`: the outcome of attempt number k of a request. The backoff sleeps
  are returned as a list of delays. The query loop (`Prepare`) and the
  response-header loop (`CollectHeaders`) are methods with loop invariants,
  proved equal to the functions `Prepared` and `HeaderMap`.
- `Files`, `DiscreteReferences` and `Client` model the resources and the
  client, each as a class over the shared transport.
- `TransportProperties` and `ResourceProperties` hold the lemmas.

## Model

| member | source | states |
|---|---|---|
| JsValues.OrString | src/client.ts:21-24 | `x \|\| d` on a string yields `x` exactly when it is defined and non-empty, otherwise the default |
| JsValues.OrNumber | src/client.ts:22-23 | `x \|\| d` on a number yields `x` exactly when it is defined and non-zero, otherwise the default |
| JsValues.Property | src/http-client.ts:113 | `errorResponse?.message` is present exactly when the parsed body is an object holding that key, and is that field's value |
| JsValues.DigitChar | src/resources/files.ts:82 | the character for a digit is a decimal digit whose code offset from '0' is the digit |
| JsValues.NatToString | src/resources/files.ts:82 | a non-negative number renders as a non-empty string of decimal digits with no leading zero: 0 renders as "0", and every other number starts with a non-zero digit |
| JsValues.IntToString | src/http-client.ts:108 | a number renders as a non-empty string that starts with '-' exactly when the number is negative; a '-' is followed by a non-zero digit; 0 renders as "0", and a leading '0' means the number is 0 |
| JsValues.NatToStringRoundTrip | src/resources/files.ts:82 | reading the digits back gives the number: decimal rendering is lossless |
| JsValues.IntToStringRoundTrip | src/resources/files.ts:82 | the rendering of any integer is well formed and parses back to that integer |
| JsValues.IntToStringInjective | src/resources/files.ts:82 | distinct integers render as distinct strings |
| JsValues.JsonToString | src/http-client.ts:113 | `String(v)` of a parsed value: a string is itself and a number its decimal rendering. An object renders as "[object Object]" and throws exactly when it has its own `toString` key. An array throws exactly when one of its non-null elements throws |
| JsValues.JoinElements | src/http-client.ts:113 | rendering an array's elements throws exactly when some non-null element's rendering throws |
| JsValues.SingletonArrayRendersElement | src/http-client.ts:113 | a one-element array renders as its element, and as "" when that element is null |
| Transport.StripTrailingSlash | src/http-client.ts:19 | a URL ending in '/' loses exactly that one character; any other URL is unchanged |
| Transport.MergeHeaders | src/http-client.ts:95-98 | the merged keys are the union of the default and per-call keys; a per-call value wins; a default not overridden survives; with no per-call headers the defaults are used as they are |
| Transport.CollectHeaders | src/http-client.ts:138-141 | the loop over response header pairs builds exactly `HeaderMap` of the pairs |
| Transport.BodyMessage | src/http-client.ts:111-114 | a message is taken exactly when the body parsed and its `message` field exists and is truthy |
| Transport.ErrorFromResponse | src/http-client.ts:107-126 | the error is an ApiError with the response status. When the body's `message` is truthy and `String` converts it, that text is the message and the parsed body is attached. When `String` throws on it, the generic "HTTP <status>: <statusText>" stays and no body is attached. Without a truthy message, the generic message comes with the parsed body, if any |
| Transport.PayloadOf | src/http-client.ts:129-136 | the `data` of a successful response is its parsed JSON, or its body text when the body is not JSON |
| Transport.DataOf | src/resources/files.ts:32-33 | `response.data` succeeds exactly when the transport call succeeds, gives its data, and passes its error through unchanged |
| Transport.HttpClient.constructor | src/http-client.ts:13-23 | the base URL loses one trailing '/'; omitted arguments take {}, 30000 and 3; any given value, 0 included, is kept |
| Transport.HttpClient.FetchWithRetry | src/http-client.ts:25-74 | the run makes attempts retryCount to retryCount+n: each attempt before the last was retryable and had retries left, the last is not retried, the run ends as the last attempt dictates (its response, the timeout error, or its exception rethrown), and the i-th sleep is 2^(retryCount+i)·1000 ms |
| Transport.HttpClient.Prepare | src/http-client.ts:84-105 | the query loop appends each entry whose value is not null or undefined as (key, String(value)) in entry order; the method defaults to GET; the headers are merged; the timeout is `options.timeout \|\| defaultTimeout` |
| Transport.HttpClient.Request | src/http-client.ts:76-149 | `request` resolves to the settled result of the retry run over the prepared request |
| Transport.HttpClient.Get | src/http-client.ts:151-158 | `get` is `request` with the method forced to GET |
| Transport.HttpClient.Post | src/http-client.ts:160-170 | `post` is `request` with the method forced to POST and the given body |
| Transport.HttpClient.Put | src/http-client.ts:172-182 | `put` is `request` with the method forced to PUT and the given body |
| Transport.HttpClient.Delete | src/http-client.ts:184-189 | `delete` is `request` with the method forced to DELETE |
| TransportProperties.OkReturnsAtOnce | src/http-client.ts:44-46 | an ok response ends the run at once, with no retry and no sleep |
| TransportProperties.NonRetryableStatusReturned | src/http-client.ts:49-58 | a non-ok response whose status is below 500 and not 0 is returned without retry, whatever the budget |
| TransportProperties.AbortNeverRetried | src/http-client.ts:60-64 | an abort ends the run with "Request timeout after <timeout \|\| defaultTimeout>ms", with no retry and no sleep, whatever the retry count |
| TransportProperties.AttemptsBounded | src/http-client.ts:49-52 | a run from attempt 0 makes at most maxRetries + 1 attempts, and exactly one when maxRetries <= 0 |
| TransportProperties.DelaysDouble | src/http-client.ts:53 | the sleeps of a run start at 1000 ms and each doubles the previous one |
| TransportProperties.RunStopsAtFirstFinalAttempt | src/http-client.ts:25-74 | if attempts 0..n-1 are retried and attempt n is not, the run has exactly n sleeps and ends as attempt n dictates; this fixes the run from the attempt outcomes alone |
| TransportProperties.SucceedsAfterFailures | src/http-client.ts:44-56 | retryable failures followed within the budget by an ok response return that response after one sleep per failure |
| TransportProperties.ExhaustedRetriesEndWithLastAttempt | src/http-client.ts:58-72 | when every attempt is retryable, the run sleeps maxRetries times and then returns the last response or rethrows the last non-abort exception |
| TransportProperties.ThreeServerErrorsThenOk | src/http-client.ts:49-56 | with three retries, three 500s and then a 200 return the 200 after sleeping 1000, 2000 and 4000 ms |
| TransportProperties.NoRetriesSingleServerError | src/http-client.ts:107-126 | with no retries, a single 500 throws an ApiError with status 500 and no sleep |
| TransportProperties.TimeoutMessageNamesTimeout | src/http-client.ts:61-63 | the timeout message is "Request timeout after ", then the timeout's decimal rendering, then "ms", and nothing else; the text between the fixed parts parses back to the timeout |
| TransportProperties.FallbackMessageNamesStatus | src/http-client.ts:108 | the generic message is "HTTP ", then the status's rendering, which holds no ':', then ": " and the status text; the characters before the first ':' after "HTTP " parse back to the status |
| TransportProperties.NotFoundWithMessage | src/http-client.ts:111-114 | a 404 whose body has message "not found" throws an ApiError with that message |
| TransportProperties.NotFoundUnparsable | src/http-client.ts:115-124 | a 404 whose body does not parse throws "HTTP 404: Not Found" with no response body |
| TransportProperties.UnconvertibleMessageFallsBack | src/http-client.ts:111-117 | a 400 whose `message` is an object with its own `toString` key throws "HTTP 400: Bad Request" with no body attached, because the conversion throws inside the `try` |
| TransportProperties.EmptyMessageFallsBack | src/http-client.ts:113 | an empty `message` field is falsy, so a 503 with it carries the generic "HTTP 503: Service Unavailable" |
| TransportProperties.FilterQueryMembership | src/http-client.ts:87-93 | a pair is in the search parameters exactly when some entry with a non-null, non-undefined value has that key and renders to that value |
| TransportProperties.FilterQueryConcat | src/http-client.ts:88 | query filtering keeps entry order: filtering a concatenation concatenates the filtered parts |
| TransportProperties.FilterQueryKeyOnce | src/http-client.ts:88-91 | when the keys are distinct, as in an object, each key is appended once if its value is present and otherwise not at all |
| TransportProperties.KeyCountConcat | src/http-client.ts:90 | occurrences of a key in a concatenation add up |
| TransportProperties.HeaderMapKeys | src/http-client.ts:138-141 | a header name is in the response record exactly when some pair names it |
| TransportProperties.HeaderMapLastWins | src/http-client.ts:139-140 | for each name, the record holds the value of the last pair with that name |
| TransportProperties.PerCallHeadersWin | src/http-client.ts:95-98 | in a prepared request, a per-call header wins over a default of the same name, other defaults remain, and the keys are the union |
| TransportProperties.PreparedDefaults | src/http-client.ts:101-104 | without a method the request is a GET; without a timeout, or with timeout 0, it uses the client's default timeout |
| TransportProperties.WrappersForceMethod | src/http-client.ts:151-189 | each of the four wrappers forces its own method and keeps the URL, headers and timeout of the caller's options; post and put carry their body |
| TransportProperties.StripRemovesOnlyOneSlash | src/http-client.ts:19 | "…/v1//" becomes "…/v1/" and "…/v1" is unchanged |
| TransportProperties.OutcomeSuccessIffOk | src/http-client.ts:107-148 | `request` succeeds exactly when the run returned an ok response. The envelope then carries its data, status, status text and header record. The data is the parsed JSON, or the body text when the body is not JSON |
| TransportProperties.OutcomeErrors | src/http-client.ts:59-72 | a non-ok final response gives an ApiError with its status; a timeout gives the timeout error; a rethrown exception is passed on as is |
| Files.UploadForm | src/resources/files.ts:39-60 | an empty filename, a string file and any other non-File, non-Buffer value each fail with their own message, in that order; otherwise the form holds the file part first, with the File's own name or the given filename for a Buffer, then a summary part exactly when the summary is truthy |
| Files.UpdateBody | src/resources/files.ts:74-80 | the update body has key `summary`, plus `expirationDate` exactly when it is truthy, with those values |
| Files.FilesResource.constructor | src/resources/files.ts:16 | the resource keeps the client it is given |
| Files.FilesResource.List | src/resources/files.ts:21-34 | `list` builds its query step by step and returns the data of GET /files with the `limit` and `offset` entries that are defined |
| Files.FilesResource.Upload | src/resources/files.ts:39-64 | a validation failure is returned without consulting the network; otherwise the form is posted to /files and its data returned |
| Files.FilesResource.Update | src/resources/files.ts:69-87 | an empty summary fails with "Summary is required" without a network call; otherwise the JSON body is PUT to /files/<id> with the JSON content type |
| Files.FilesResource.Delete | src/resources/files.ts:92-95 | `delete` returns true exactly when DELETE /files/<id> succeeds, and otherwise fails with the transport's error |
| Files.FilesResource.Get | src/resources/files.ts:100-103 | `get` returns the data of GET /files/<id> |
| DiscreteReferences.SearchRequest | src/resources/discrete-references.ts:24-29 | a tier passes its arguments on, with `markupColor` kept exactly when it is truthy and otherwise undefined |
| DiscreteReferences.SearchBody | src/resources/discrete-references.ts:77-85 | the search body always has fileId, prompt and markupFile with the request's values, and has markupColor exactly when it is truthy |
| DiscreteReferences.DiscreteReferencesResource.constructor | src/resources/discrete-references.ts:13 | the resource keeps the client it is given |
| DiscreteReferences.DiscreteReferencesResource.SearchReferences | src/resources/discrete-references.ts:69-96 | building the body in place and posting it gives the search outcome: a validation error for an empty prompt, otherwise the data of the POST |
| DiscreteReferences.DiscreteReferencesResource.Basic | src/resources/discrete-references.ts:18-30 | `basic` searches /discrete-references/basic with the normalised request |
| DiscreteReferences.DiscreteReferencesResource.Standard | src/resources/discrete-references.ts:35-47 | `standard` searches /discrete-references/standard with the normalised request |
| DiscreteReferences.DiscreteReferencesResource.Advanced | src/resources/discrete-references.ts:52-64 | `advanced` searches /discrete-references/advanced with the normalised request |
| Client.DefaultHeaders | src/client.ts:26-29 | the default headers are exactly `x-api-key` and `User-Agent`, holding the key and the user agent |
| Client.ResolveConfig | src/client.ts:16-24 | configuration fails exactly when the key is missing or empty, with "API key is required". Otherwise the key is kept, and each of the other four fields keeps a supplied non-empty or non-zero value and otherwise takes its own default, independently of the other fields |
| Client.PenpointClient.FromSettings | src/client.ts:26-34 | one transport is built from the resolved settings and handed to both resources |
| Client.PenpointClient.Create | src/client.ts:16-35 | construction fails before anything is built exactly when the key is missing or empty; otherwise a fresh client shares one transport configured with the resolved settings |
| Client.PenpointClient.GetHttpClient | src/client.ts:52-54 | `getHttpClient()` returns the very transport both resources use |
| ResourceProperties.ListSearch | src/resources/files.ts:22-32 | the search parameters of `list` are `limit` and then `offset`, each present exactly when defined, as decimal text |
| ResourceProperties.ListSendsPagination | src/resources/files.ts:21-33 | `list` sends GET /files, and its URL carries `limit` exactly when the limit is defined, and `offset` likewise |
| ResourceProperties.FilePathInjective | src/resources/files.ts:82 | distinct file ids address distinct paths |
| ResourceProperties.UpdateSendsPut | src/resources/files.ts:74-84 | `update` sends PUT /files/<id> with no query, `Content-Type: application/json`, and a body holding `expirationDate` exactly when it is truthy |
| ResourceProperties.UploadSendsPost | src/resources/files.ts:62 | `upload` posts to /files with only the default headers and the default timeout |
| ResourceProperties.DeleteAndGetAddressFile | src/resources/files.ts:92-103 | `delete` sends DELETE and `get` sends GET, each to the URL /files/<id> with no query |
| ResourceProperties.ListQueryOrder | src/resources/files.ts:24-30 | limit 10 and offset 20 are sent as limit=10 and then offset=20 |
| ResourceProperties.TiersDifferOnlyInEndpoint | src/resources/discrete-references.ts:18-64 | the three tiers send the same request except for its endpoint (/basic, /standard, /advanced), so the three requests are distinct |
| ResourceProperties.EmptyMarkupColorIsAbsent | src/resources/discrete-references.ts:28 | an empty colour and an absent one produce the same request |
| ResourceProperties.SearchSendsPost | src/resources/discrete-references.ts:87-93 | a search sends a POST of its JSON body with `Content-Type: application/json` |
| ResourceProperties.EmptyPromptIgnoresNetwork | src/resources/discrete-references.ts:73-75 | an empty prompt fails with "Prompt is required" whatever the network would do |
| ResourceProperties.SearchReturnsData | src/resources/discrete-references.ts:87-95 | a search with a prompt succeeds exactly when the POST does, and returns its data unchanged |
| ResourceProperties.DefaultConfiguration | src/client.ts:21-24 | with only a key: base URL https://api.penpoint.ai/v1, timeout 30000, 3 retries, user agent penpoint-js/0.1.0 |
| ResourceProperties.FalsyConfigFallsBack | src/client.ts:21-24 | each missing or empty base URL or user agent, and each missing or zero timeout or retry count, takes its documented default (https://api.penpoint.ai/v1, 30000, 3, penpoint-js/0.1.0), whatever the other fields hold |
| ResourceProperties.SuppliedConfigPassesThrough | src/client.ts:21-24 | with a valid key, each supplied non-empty or non-zero field reaches the settings unchanged, whatever the other fields hold |
| ResourceProperties.MixedConfigResolvesPerField | src/client.ts:21-24 | a key, a base URL and `maxRetries: 0` resolve to that key and base URL, 30000, 3 and the default user agent |
| ResourceProperties.MissingKeyRejected | src/client.ts:17-19 | a missing or empty key is rejected with "API key is required" |
| ResourceProperties.PerCallApiKeyWins | src/http-client.ts:95-98 | a per-call `x-api-key` replaces the client's key for that call, and the user agent stays |

## Left out

- `fetch`, `AbortController`, `setTimeout` and `clearTimeout` are not modelled. Each attempt's outcome comes from the oracle `Fetch`, and an abort by the timer is one of its outcomes. Sleeps are returned as delays; wall-clock time is not modelled.
- `async`/`Promise` sequencing and concurrent calls are not modelled. Every call is a single sequential computation.
- `response.json()`, `response.text()` and `JSON.stringify` are not modelled. A response carries its parsed JSON as an `Option` (None when parsing fails) and its text. Request bodies are maps of JSON values. That a body stream cannot be read twice is not modelled.
- `new URL(endpoint, base)` resolution is not modelled. A URL is the base, the endpoint and the ordered search pairs. So a leading '/' in the endpoint replacing the base's path is not captured.
- The response `Headers` object's name lower-casing and value combining are not modelled. Its `forEach` is taken as a sequence of pairs.
- `FormData`, `Blob`, `Buffer` and `File` internals are not modelled. The runtime type test in `upload` is a choice between four kinds of value, and the form is a list of parts.
- Numbers are unbounded integers. NaN, infinities, fractions and the loss of precision beyond 2^53 are not modelled. `String(n)` is modelled as plain decimal digits; JavaScript writes magnitudes of 10^21 and above in exponent form, which is not modelled.
- Transport.HttpClient.FetchWithRetry: the delays are the values asked of `setTimeout`. JavaScript timers run a delay above 2^31-1 ms as 1 ms, which applies from the retry after attempt 22 on (maxRetries of 23 or more). That clamp is not modelled.
- `filename`, `summary` in `update`, and `prompt` are modelled as strings, not optional strings. An absent value behaves like "" in every test the source makes of them.
- Transport.HttpClient.Post, Transport.HttpClient.Put: `body || null` is modelled as passing the body on unchanged, because every body the resources send is a non-empty JSON text or a form, so none is falsy.
- `src/types.ts` contributes only data shapes and error class names. `src/index.ts`, `examples/basic-usage.ts` and `tests/setup.ts` are not part of this model.
- `getVersion()` is the constant "0.1.0". Its unreachable `catch` branch is not modelled.
