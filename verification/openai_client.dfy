/**
 * The chat-completion client: model-id aliasing, the request body, and the
 * interpretation of the HTTP outcome. The HTTP exchange itself is abstract: it
 * is the `HttpOutcome` parameter, the result of sending the request.
 */
module OpenAIClient {
  import opened Wrappers
  import opened Text

  datatype ChatRole = System | User | Assistant

  datatype ChatMessage = ChatMessage(role: ChatRole, content: string)

  datatype Usage = Usage(promptTokens: int, completionTokens: int, totalTokens: int)

  /** The bearer credential plus the JSON body of one chat-completion call. */
  datatype ChatRequest = ChatRequest(
    apiKey: string,
    model: string,
    messages: seq<ChatMessage>,
    maxTokens: int,
    temperature: real)

  /** What the client hands back to its callers. */
  datatype ChatResult = ChatResult(
    content: string,
    model: string,
    usage: Option<Usage>,
    error: Option<string>)

  /** The parsed JSON body of a response: `error.message`, `error.code`, the first choice's content, usage, model. */
  datatype ResponseBody = ResponseBody(
    errorMessage: Option<string>,
    errorCode: Option<string>,
    firstChoiceContent: Option<string>,
    usage: Option<Usage>,
    model: Option<string>)

  /** The abstract HTTP exchange: it threw (network failure, unparsable body), or a response arrived. */
  datatype HttpOutcome =
    | Threw(detail: string)
    | Responded(ok: bool, statusText: string, body: ResponseBody)

  const DefaultMaxTokens: int := 4096
  const Temperature: real := 0.3

  const ApiErrorPrefix: string := "OpenAI API error: "
  const RequestFailedPrefix: string := "Request failed: "

  /** Friendly ids the vendor knows under another name. */
  const ModelAliases: map<string, string> := map[
    "gpt-4-turbo" := "gpt-4-turbo-preview",
    "gpt-4" := "gpt-4",
    "gpt-3.5-turbo" := "gpt-3.5-turbo"
  ]

  /** A system message followed by a user message, the shape of every request the extension sends. */
  function Exchange(system: string, user: string): (r: seq<ChatMessage>)
    ensures |r| == 2 && r[0] == ChatMessage(System, system) && r[1] == ChatMessage(User, user)
  {
    [ChatMessage(System, system), ChatMessage(User, user)]
  }

  /** `modelMap[modelId] || modelId`: only `gpt-4-turbo` is renamed; every other id passes through. */
  function AliasModel(id: string): (r: string)
    ensures id == "gpt-4-turbo" ==> r == "gpt-4-turbo-preview"
    ensures id != "gpt-4-turbo" ==> r == id
  {
    if id in ModelAliases && ModelAliases[id] != "" then ModelAliases[id] else id
  }

  /**
   * `/^gpt-/.test(modelId) ? modelId : 'gpt-4-turbo'`: the fallback every editor
   * feature applies before calling the client, so that only vendor models are sent.
   */
  function ChatModelOrDefault(id: string): (r: string)
    ensures StartsWith(r, "gpt-")
    ensures StartsWith(id, "gpt-") <==> r == id
  {
    if StartsWith(id, "gpt-") then id else "gpt-4-turbo"
  }

  /** The request `completeChat` sends for the given arguments. */
  function BuildRequest(apiKey: string, modelId: string, messages: seq<ChatMessage>, maxTokens: int): (r: ChatRequest)
    ensures r.model == AliasModel(modelId) && r.temperature == 0.3
    ensures r.messages == messages && r.maxTokens == maxTokens && r.apiKey == apiKey
  {
    ChatRequest(apiKey, AliasModel(modelId), messages, maxTokens, Temperature)
  }

  /** `data.error?.message || data.error?.code || res.statusText`. */
  function VendorErrorDetail(statusText: string, body: ResponseBody): (r: string)
    ensures Truthy(body.errorMessage) ==> r == body.errorMessage.value
    ensures !Truthy(body.errorMessage) && Truthy(body.errorCode) ==> r == body.errorCode.value
    ensures !Truthy(body.errorMessage) && !Truthy(body.errorCode) ==> r == statusText
  {
    if Truthy(body.errorMessage) then body.errorMessage.value
    else if Truthy(body.errorCode) then body.errorCode.value
    else statusText
  }

  /** The result `completeChat` returns for a request whose exchange ended with `http`. */
  function Interpret(request: ChatRequest, http: HttpOutcome): (r: ChatResult)
    ensures r.error.Some? <==> !(http.Responded? && http.ok)
    ensures r.error.Some? ==> r.content == "" && r.usage.None?
    ensures http.Threw? ==> r.error == Some(RequestFailedPrefix + http.detail) && r.model == request.model
    ensures http.Responded? && !http.ok ==>
      r.error == Some(ApiErrorPrefix + VendorErrorDetail(http.statusText, http.body)) && r.model == request.model
    ensures http.Responded? && http.ok ==> IsTrimmed(r.content) && r.usage == http.body.usage
    ensures http.Responded? && http.ok && http.body.firstChoiceContent.Some? ==>
      r.content == Trim(http.body.firstChoiceContent.value)
    ensures http.Responded? && http.ok && http.body.firstChoiceContent.None? ==> r.content == ""
    ensures http.Responded? && http.ok ==>
      r.model == (if Truthy(http.body.model) then http.body.model.value else request.model)
  {
    match http
    case Threw(detail) =>
      ChatResult("", request.model, None, Some(RequestFailedPrefix + detail))
    case Responded(ok, statusText, body) =>
      if !ok then
        ChatResult("", request.model, None, Some(ApiErrorPrefix + VendorErrorDetail(statusText, body)))
      else
        var content := if body.firstChoiceContent.Some? then Trim(body.firstChoiceContent.value) else "";
        var model := if Truthy(body.model) then body.model.value else request.model;
        ChatResult(content, model, body.usage, None)
  }

  /** `completeChat(apiKey, modelId, messages, maxTokens)`: the request sent and the result returned. */
  function CompleteChat(apiKey: string, modelId: string, messages: seq<ChatMessage>, maxTokens: int,
                        http: HttpOutcome): (ChatRequest, ChatResult)
  {
    var request := BuildRequest(apiKey, modelId, messages, maxTokens);
    (request, Interpret(request, http))
  }

  /** A failed exchange always yields empty content and a prefixed error message. */
  lemma ErrorShape(request: ChatRequest, http: HttpOutcome)
    ensures var r := Interpret(request, http);
      r.error.Some? ==>
        (r.content == "" &&
         (StartsWith(r.error.value, ApiErrorPrefix) || StartsWith(r.error.value, RequestFailedPrefix)))
  {
    var r := Interpret(request, http);
    if r.error.Some? {
      if http.Threw? {
        assert r.error.value == RequestFailedPrefix + http.detail;
        assert r.error.value[..|RequestFailedPrefix|] == RequestFailedPrefix;
      } else {
        var d := VendorErrorDetail(http.statusText, http.body);
        assert r.error.value == ApiErrorPrefix + d;
        assert r.error.value[..|ApiErrorPrefix|] == ApiErrorPrefix;
      }
    }
  }
}
