/** The records of src/types/api.ts, src/types/history.ts and
    src/types/services.ts, and the values JavaScript code throws or returns. */
module ApiTypes {

  /** An optional property (`x?: T`): `None` is `undefined`. */
  datatype Option<+T> = None | Some(value: T) {
    /** The property, or `default` when it is undefined (a default parameter). */
    function GetOr(default: T): T {
      match this
      case Some(v) => v
      case None => default
    }
  }

  /** A thrown JavaScript value: an `Error` object with its message, or anything else. */
  datatype Exception = Error(message: string) | NonError

  /** What a call that may throw produces: its returned value or the thrown one. */
  datatype Outcome<+T> = Return(value: T) | Throw(thrown: Exception)

  /** GenerationModel of src/types/services.ts. */
  datatype GenerationModel = GenerationModel(name: string, id: string, comment: string)

  /** The two provider tags of GenerationModelProvider. A provider is kept as a
      string, as it is at run time: a stored configuration is cast, not checked. */
  const OPENAI: string := "openai"
  const ANTHROPIC: string := "anthropic"

  /** UserAPIConfig: the optional model and token bound are `None` when undefined. */
  datatype UserAPIConfig = UserAPIConfig(
    provider: string,
    apiKey: string,
    model: Option<string>,
    maxTokens: Option<int>)

  /** ResumeBulletPointParameters, also the form data of the application. */
  datatype ResumeBulletPointParameters = ResumeBulletPointParameters(
    jobTitle: string,
    company: string,
    jobDescription: string,
    workExperience: string,
    skills: string,
    bulletPointCount: int)

  datatype GenerateRequest = GenerateRequest(
    parameters: ResumeBulletPointParameters,
    apiConfig: UserAPIConfig)

  /** GenerateResponse: `error` is `None` when the property is absent. */
  datatype GenerateResponse = GenerateResponse(bulletPoints: seq<string>, error: Option<string>)

  /** RunHistory of src/types/history.ts: one persisted generation run. */
  datatype RunHistory = RunHistory(
    id: string,
    timestamp: int,
    parameters: ResumeBulletPointParameters,
    request: GenerateRequest,
    response: GenerateResponse)

  /** `Omit<RunHistory, 'id' | 'timestamp'>`: a run before the store stamps it. */
  datatype NewRun = NewRun(
    parameters: ResumeBulletPointParameters,
    request: GenerateRequest,
    response: GenerateResponse)

  /** The credential record `{ provider, apiKey, model }` of src/services/storage.ts. */
  datatype SavedAPIConfig = SavedAPIConfig(provider: string, apiKey: string, model: string)
}

/** The network boundary of the adapters: the request `fetch` is given and what it
    answers. The answer is an input of the model, never computed. */
module Http {
  import opened ApiTypes

  /** An OpenAI chat message `{ role, content }`. */
  datatype ChatMessage = ChatMessage(role: string, content: string)

  /** An Anthropic content block `{ type, text }`. */
  datatype TextBlock = TextBlock(blockType: string, text: string)

  /** An Anthropic message `{ role, content: [blocks] }`. */
  datatype AnthropicMessage = AnthropicMessage(role: string, content: seq<TextBlock>)

  datatype RequestBody =
    | OpenAIBody(model: string, maxTokens: int, messages: seq<ChatMessage>)
    | AnthropicBody(anthropicModel: string, anthropicMaxTokens: int, anthropicMessages: seq<AnthropicMessage>)

  /** A POST request: endpoint, headers and JSON body. */
  datatype HttpRequest = HttpRequest(url: string, headers: seq<(string, string)>, body: RequestBody)

  /** The text an adapter extracts from a successful JSON body, or the error that
      reading it throws (malformed JSON, a missing field). */
  datatype ResponseContent = Extracted(text: string) | Unreadable(message: string)

  /** What awaiting `fetch` gives: a rejection, or a response with its `ok` flag,
      its body as text, and the adapter's extracted content. */
  datatype FetchResult =
    | NetworkFailure(thrown: Exception)
    | Response(ok: bool, bodyText: string, content: ResponseContent)

  /** The network, as a function of the request it is sent. */
  type Fetch = HttpRequest -> FetchResult
}
