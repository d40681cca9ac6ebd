/**
  The files resource: local validation of required fields, then one transport
  call per operation. Each operation returns the transport's `data`, or the
  error it threw, or a validation error raised before the transport is used.
 */
module Files {
  import opened JsValues
  import opened Types
  import opened Transport

  /** `/files/${fileId}`. */
  function FilePath(fileId: int): string {
    "/files/" + IntToString(fileId)
  }

  /** The query dictionary of `list`: `limit` and `offset` when defined, in that order. */
  function ListQuery(params: PaginationParams): seq<QueryEntry> {
    (if params.limit.Some? then [("limit", QNum(params.limit.value))] else []) +
    (if params.offset.Some? then [("offset", QNum(params.offset.value))] else [])
  }

  /** The form data of `upload`, or the validation error it throws first. */
  function UploadForm(request: FileUploadRequest): (r: Result<seq<FormPart>, PenpointError>)
    ensures request.filename == "" ==> r == Failure(ValidationError("Filename is required"))
    ensures request.filename != "" && request.file.PathString? ==>
              r == Failure(ValidationError("File upload from string path is not supported in browser environment"))
    ensures request.filename != "" && request.file.OtherValue? ==>
              r == Failure(ValidationError("Invalid file type"))
    ensures r.Success? <==> request.filename != "" && (request.file.FileValue? || request.file.BufferValue?)
    ensures r.Success? ==>
              |r.value| == (if StrTruthy(request.summary) then 2 else 1) &&
              r.value[0].BlobPart? && r.value[0].name == "file" &&
              (StrTruthy(request.summary) ==> r.value[1] == TextPart("summary", request.summary.value))
    ensures r.Success? && request.file.FileValue? ==>
              r.value[0] == BlobPart("file", request.file.contents, request.file.fileName)
    ensures r.Success? && request.file.BufferValue? ==>
              r.value[0] == BlobPart("file", request.file.bytes, request.filename)
  {
    if request.filename == "" then Failure(ValidationError("Filename is required"))
    else
      match request.file
      case FileValue(name, contents) => Success([BlobPart("file", contents, name)] + SummaryPart(request.summary))
      case BufferValue(bytes) => Success([BlobPart("file", bytes, request.filename)] + SummaryPart(request.summary))
      case PathString(_) =>
        Failure(ValidationError("File upload from string path is not supported in browser environment"))
      case OtherValue => Failure(ValidationError("Invalid file type"))
  }

  function SummaryPart(summary: Option<string>): seq<FormPart> {
    if StrTruthy(summary) then [TextPart("summary", summary.value)] else []
  }

  /** The JSON body of `update`. */
  function UpdateBody(summary: string, expirationDate: Option<string>): (body: map<string, JsonValue>)
    ensures body.Keys == {"summary"} + (if StrTruthy(expirationDate) then {"expirationDate"} else {})
    ensures body["summary"] == JStr(summary)
    ensures StrTruthy(expirationDate) ==> body["expirationDate"] == JStr(expirationDate.value)
  {
    var body := map["summary" := JStr(summary)];
    if StrTruthy(expirationDate) then body["expirationDate" := JStr(expirationDate.value)] else body
  }

  class FilesResource {
    const client: HttpClient

    constructor(client: HttpClient)
      ensures this.client == client
    {
      this.client := client;
    }

    /** `list(params)`: GET /files with the pagination query. */
    method List(params: PaginationParams, fetch: Fetch) returns (r: Result<Payload, PenpointError>)
      ensures r == DataOf(client.Outcome("/files", GetOptions(QueryOnly(ListQuery(params))), fetch))
    {
      var query: seq<QueryEntry> := [];
      if params.limit.Some? {
        query := query + [("limit", QNum(params.limit.value))];
      }
      if params.offset.Some? {
        query := query + [("offset", QNum(params.offset.value))];
      }
      assert query == ListQuery(params);
      var response := client.Get("/files", QueryOnly(query), fetch);
      r := DataOf(response);
    }

    /** `upload(request)`: validation, the form filled step by step, then POST /files. */
    method Upload(request: FileUploadRequest, fetch: Fetch) returns (r: Result<Payload, PenpointError>)
      ensures UploadForm(request).Failure? ==> r == Failure(UploadForm(request).error)
      ensures UploadForm(request).Success? ==>
                r == DataOf(client.Outcome("/files", PostOptions(Some(Multipart(UploadForm(request).value)), NoOptions), fetch))
    {
      if request.filename == "" {
        return Failure(ValidationError("Filename is required"));
      }
      var form: seq<FormPart> := [];
      match request.file {
        case FileValue(name, contents) =>
          form := form + [BlobPart("file", contents, name)];
        case BufferValue(bytes) =>
          form := form + [BlobPart("file", bytes, request.filename)];
        case PathString(_) =>
          return Failure(ValidationError("File upload from string path is not supported in browser environment"));
        case OtherValue =>
          return Failure(ValidationError("Invalid file type"));
      }
      if StrTruthy(request.summary) {
        form := form + [TextPart("summary", request.summary.value)];
      }
      assert form == UploadForm(request).value;
      var response := client.Post("/files", Some(Multipart(form)), NoOptions, fetch);
      r := DataOf(response);
    }

    /** `update(fileId, request)`: validation, then PUT /files/<id> with a JSON body. */
    method Update(fileId: int, request: FileUpdateRequest, fetch: Fetch) returns (r: Result<Payload, PenpointError>)
      ensures request.summary == "" ==> r == Failure(ValidationError("Summary is required"))
      ensures request.summary != "" ==>
                r == DataOf(client.Outcome(FilePath(fileId),
                                           PutOptions(Some(JsonText(UpdateBody(request.summary, request.expirationDate))),
                                                      HeadersOnly(JsonContentType)),
                                           fetch))
    {
      if request.summary == "" {
        return Failure(ValidationError("Summary is required"));
      }
      var body := map["summary" := JStr(request.summary)];
      if StrTruthy(request.expirationDate) {
        body := body["expirationDate" := JStr(request.expirationDate.value)];
      }
      var response := client.Put(FilePath(fileId), Some(JsonText(body)), HeadersOnly(JsonContentType), fetch);
      r := DataOf(response);
    }

    /** `delete(fileId)`: DELETE /files/<id>; true once the transport succeeded. */
    method Delete(fileId: int, fetch: Fetch) returns (r: Result<bool, PenpointError>)
      ensures var t := client.Outcome(FilePath(fileId), DeleteOptions(NoOptions), fetch);
              (r.Success? <==> t.Success?) &&
              (r.Success? ==> r.value) &&
              (r.Failure? ==> r.error == t.error)
    {
      var response := client.Delete(FilePath(fileId), NoOptions, fetch);
      match response {
        case Success(_) => r := Success(true);
        case Failure(e) => r := Failure(e);
      }
    }

    /** `get(fileId)`: GET /files/<id>. */
    method Get(fileId: int, fetch: Fetch) returns (r: Result<Payload, PenpointError>)
      ensures r == DataOf(client.Outcome(FilePath(fileId), GetOptions(NoOptions), fetch))
    {
      var response := client.Get(FilePath(fileId), NoOptions, fetch);
      r := DataOf(response);
    }
  }
}
