/**
  The discrete-references resource: three search tiers that differ only in
  their endpoint, and one shared routine that validates the prompt, builds
  the JSON body and posts it.
 */
module DiscreteReferences {
  import opened JsValues
  import opened Types
  import opened Transport

  const BasicPath := "/discrete-references/basic"
  const StandardPath := "/discrete-references/standard"
  const AdvancedPath := "/discrete-references/advanced"

  /** The request a tier hands to the shared routine: `markupColor || undefined`. */
  function SearchRequest(fileId: int, prompt: string, markupFile: bool, markupColor: Option<string>)
    : (req: DiscreteReferenceRequest)
    ensures req.fileId == fileId && req.prompt == prompt && req.markupFile == markupFile
    ensures req.markupColor.Some? <==> StrTruthy(markupColor)
    ensures req.markupColor.Some? ==> req.markupColor == markupColor
  {
    DiscreteReferenceRequest(fileId, prompt, markupFile, if StrTruthy(markupColor) then markupColor else None)
  }

  /** The JSON body of a search: always `fileId`, `prompt` and `markupFile`,
      and `markupColor` exactly when it is truthy. */
  function SearchBody(req: DiscreteReferenceRequest): (body: map<string, JsonValue>)
    ensures body.Keys == {"fileId", "prompt", "markupFile"} + (if StrTruthy(req.markupColor) then {"markupColor"} else {})
    ensures body["fileId"] == JNum(req.fileId)
    ensures body["prompt"] == JStr(req.prompt)
    ensures body["markupFile"] == JBool(req.markupFile)
    ensures StrTruthy(req.markupColor) ==> body["markupColor"] == JStr(req.markupColor.value)
  {
    var body := map["fileId" := JNum(req.fileId), "prompt" := JStr(req.prompt), "markupFile" := JBool(req.markupFile)];
    if StrTruthy(req.markupColor) then body["markupColor" := JStr(req.markupColor.value)] else body
  }

  /** The options of the POST a search sends: its JSON body and the JSON content type. */
  function SearchOptions(req: DiscreteReferenceRequest): RequestOptions {
    PostOptions(Some(JsonText(SearchBody(req))), HeadersOnly(JsonContentType))
  }

  class DiscreteReferencesResource {
    const client: HttpClient

    constructor(client: HttpClient)
      ensures this.client == client
    {
      this.client := client;
    }

    /** What `searchReferences(endpoint, req)` resolves to: a validation error
        for an empty prompt, otherwise the data of the POST. */
    function SearchOutcome(endpoint: string, req: DiscreteReferenceRequest, fetch: Fetch): Result<Payload, PenpointError> {
      if req.prompt == "" then Failure(ValidationError("Prompt is required"))
      else DataOf(client.Outcome(endpoint, SearchOptions(req), fetch))
    }

    /** `searchReferences(endpoint, req)`: the body is built, then `markupColor` added in place. */
    method SearchReferences(endpoint: string, req: DiscreteReferenceRequest, fetch: Fetch)
      returns (r: Result<Payload, PenpointError>)
      ensures r == SearchOutcome(endpoint, req, fetch)
    {
      if req.prompt == "" {
        return Failure(ValidationError("Prompt is required"));
      }
      var body := map["fileId" := JNum(req.fileId), "prompt" := JStr(req.prompt), "markupFile" := JBool(req.markupFile)];
      if StrTruthy(req.markupColor) {
        body := body["markupColor" := JStr(req.markupColor.value)];
      }
      var response := client.Post(endpoint, Some(JsonText(body)), HeadersOnly(JsonContentType), fetch);
      r := DataOf(response);
    }

    /** `basic(fileId, prompt, markupFile, markupColor)`. */
    method Basic(fileId: int, prompt: string, markupFile: bool, markupColor: Option<string>, fetch: Fetch)
      returns (r: Result<Payload, PenpointError>)
      ensures r == SearchOutcome(BasicPath, SearchRequest(fileId, prompt, markupFile, markupColor), fetch)
    {
      r := SearchReferences(BasicPath, SearchRequest(fileId, prompt, markupFile, markupColor), fetch);
    }

    /** `standard(fileId, prompt, markupFile, markupColor)`. */
    method Standard(fileId: int, prompt: string, markupFile: bool, markupColor: Option<string>, fetch: Fetch)
      returns (r: Result<Payload, PenpointError>)
      ensures r == SearchOutcome(StandardPath, SearchRequest(fileId, prompt, markupFile, markupColor), fetch)
    {
      r := SearchReferences(StandardPath, SearchRequest(fileId, prompt, markupFile, markupColor), fetch);
    }

    /** `advanced(fileId, prompt, markupFile, markupColor)`. */
    method Advanced(fileId: int, prompt: string, markupFile: bool, markupColor: Option<string>, fetch: Fetch)
      returns (r: Result<Payload, PenpointError>)
      ensures r == SearchOutcome(AdvancedPath, SearchRequest(fileId, prompt, markupFile, markupColor), fetch)
    {
      r := SearchReferences(AdvancedPath, SearchRequest(fileId, prompt, markupFile, markupColor), fetch);
    }
  }
}
