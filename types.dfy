/**
  Data shapes shared by the transport, the client and the resources: request
  bodies, query values, the response envelope, the errors the library throws,
  and the request records the resources accept.
 */
module Types {
  import opened JsValues

  /** A call either yields a value or throws an error. */
  datatype Result<+R, +E> = Success(value: R) | Failure(error: E)

  /** A thrown JavaScript value, as seen by a `catch`: whether it is an
      `Error` instance, its `name` and its `message`. */
  datatype Exception = Exception(isErrorInstance: bool, name: string, message: string)

  /** Everything the library throws, by kind. */
  datatype PenpointError =
    | ValidationError(message: string)
      // PenpointValidationError: a required field was missing or empty
    | ApiError(message: string, status: int, response: Option<JsonValue>)
      // the `ApiError` record built for a non-2xx final response
    | TimeoutError(message: string)
      // the `Error` thrown when an attempt was aborted
    | NetworkError(cause: Exception)
      // a fetch exception rethrown unchanged once retries ran out

  /** One entry of a multipart form: a binary part with its file name, or a text part. */
  datatype FormPart =
    | BlobPart(name: string, bytes: seq<int>, filename: string)
    | TextPart(name: string, text: string)

  /** A request body: JSON text (modelled by the object it encodes) or multipart form data. */
  datatype Body =
    | JsonText(fields: map<string, JsonValue>)
    | Multipart(parts: seq<FormPart>)

  /** A value of a query-parameter dictionary; null and undefined can reach the
      transport even though its type does not admit them. */
  datatype QueryValue = QStr(s: string) | QNum(n: int) | QBool(b: bool) | QNull | QUndefined

  /** One `[key, value]` pair of `Object.entries(query)`. */
  type QueryEntry = (string, QueryValue)

  /** The options of one transport call. Every field may be undefined. */
  datatype RequestOptions = RequestOptions(
    verb: Option<string>,
    body: Option<Body>,
    query: Option<seq<QueryEntry>>,
    headers: Option<map<string, string>>,
    timeout: Option<int>)

  /** The header the resources send with JSON bodies. */
  const JsonContentType: map<string, string> := map["Content-Type" := "application/json"]

  /** A call made without an options object. */
  const NoOptions := RequestOptions(None, None, None, None, None)

  /** The decoded body of a successful response: JSON when it parsed, its text otherwise. */
  datatype Payload = JsonData(json: JsonValue) | TextData(text: string)

  /** ApiResponse<T>: the success envelope. */
  datatype ApiResponse = ApiResponse(
    data: Payload,
    status: int,
    statusText: string,
    headers: map<string, string>)

  /** ClientConfig: only the API key is required by the type, and even it may be empty. */
  datatype ClientConfig = ClientConfig(
    apiKey: Option<string>,
    baseUrl: Option<string>,
    timeout: Option<int>,
    maxRetries: Option<int>,
    userAgent: Option<string>)

  /** PaginationParams. */
  datatype PaginationParams = PaginationParams(limit: Option<int>, offset: Option<int>)

  /** The `file` field of an upload: a File (its name and contents), a Buffer,
      a string path, or any other value. */
  datatype UploadSource =
    | FileValue(fileName: string, contents: seq<int>)
    | BufferValue(bytes: seq<int>)
    | PathString(path: string)
    | OtherValue

  /** FileUploadRequest. */
  datatype FileUploadRequest = FileUploadRequest(
    file: UploadSource,
    filename: string,
    summary: Option<string>)

  /** FileUpdateRequest. */
  datatype FileUpdateRequest = FileUpdateRequest(
    summary: string,
    expirationDate: Option<string>)

  /** DiscreteReferenceRequest. */
  datatype DiscreteReferenceRequest = DiscreteReferenceRequest(
    fileId: int,
    prompt: string,
    markupFile: bool,
    markupColor: Option<string>)
}
