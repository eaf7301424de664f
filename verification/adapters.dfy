/** The endpoints, the system message and the error prefixes of the two
    adapters. */
module ProviderText {
  const OPENAI_ENDPOINT: string := "https://api.openai.com/v1/chat/completions"
  const OPENAI_SYSTEM_CONTENT: string :=
    "You are a professional resume writer who creates compelling, targeted bullet points."
  const OPENAI_ERROR_PREFIX: string := "OpenAI API error: "
  const ANTHROPIC_ENDPOINT: string := "https://api.anthropic.com/v1/messages"
  const ANTHROPIC_ERROR_PREFIX: string := "Anthropic API error: "
}

/** OpenAIAPI of src/services/openai.ts. Its fields are set once by the
    constructor, so an adapter is a value. */
module OpenAI {
  import opened ApiTypes
  import opened Http
  import opened JsStrings
  import opened BulletParse
  import Prompts
  import opened ProviderText

  const MODELS: seq<GenerationModel> := [
    GenerationModel("GPT-4", "gpt-4", "Best Quality"),
    GenerationModel("GPT-4o", "gpt-4o", "Best Quality"),
    GenerationModel("GPT-4o Mini", "gpt-4o-mini", "Faster, Cheaper")
  ]

  const DEFAULT_MAX_TOKENS: int := 1000

  datatype OpenAIAPI = OpenAIAPI(apiKey: string, model: string, maxTokens: int)

  /** The constructor: an undefined model or token bound takes its default. */
  function New(apiKey: string, model: Option<string>, maxTokens: Option<int>): (api: OpenAIAPI)
    ensures api.apiKey == apiKey
    ensures model.None? ==> api.model == "gpt-4"
    ensures model.Some? ==> api.model == model.value
    ensures maxTokens.None? ==> api.maxTokens == 1000
    ensures maxTokens.Some? ==> api.maxTokens == maxTokens.value
  {
    OpenAIAPI(apiKey, model.GetOr(MODELS[0].id), maxTokens.GetOr(DEFAULT_MAX_TOKENS))
  }

  /** `request.apiConfig.model || this.model`: a non-empty requested model wins. */
  function BodyModel(api: OpenAIAPI, request: GenerateRequest): (model: string)
    ensures request.apiConfig.model.Some? && request.apiConfig.model.value != "" ==>
      model == request.apiConfig.model.value
    ensures request.apiConfig.model.None? || request.apiConfig.model == Some("") ==> model == api.model
  {
    match request.apiConfig.model
    case Some(m) => if m != "" then m else api.model
    case None => api.model
  }

  /** The POST request `generateBulletPoints` sends with the prompt it built. */
  function BuildRequest(api: OpenAIAPI, request: GenerateRequest, prompt: string): (r: HttpRequest)
    ensures r.body.OpenAIBody? && r.body.maxTokens == api.maxTokens
    ensures |r.body.messages| == 2
    ensures r.body.messages[0].role == "system" && r.body.messages[1].role == "user"
    ensures r.body.messages[0].content == OPENAI_SYSTEM_CONTENT && r.body.messages[1].content == prompt
  {
    HttpRequest(
      OPENAI_ENDPOINT,
      [("Content-Type", "application/json"), ("Authorization", "Bearer " + api.apiKey)],
      OpenAIBody(
        BodyModel(api, request),
        api.maxTokens,
        [ChatMessage("system", OPENAI_SYSTEM_CONTENT), ChatMessage("user", prompt)]))
  }

  /** The handling of `fetch`'s answer: a rejection, a non-ok status and an
      unreadable body throw; otherwise the content is parsed into at most
      `count` bullets and no error is set. */
  function ReadResponse(answer: FetchResult, count: int): (r: Outcome<GenerateResponse>)
    ensures answer.Response? && !answer.ok ==> r == Throw(Error(OPENAI_ERROR_PREFIX + answer.bodyText))
    ensures answer.NetworkFailure? ==> r == Throw(answer.thrown)
    ensures r.Return? <==> answer.Response? && answer.ok && answer.content.Extracted?
    ensures r.Return? ==> r.value.error.None?
    ensures r.Return? ==> r.value.bulletPoints == ParseBulletPoints(answer.content.text, count)
  {
    match answer
    case NetworkFailure(thrown) => Throw(thrown)
    case Response(ok, bodyText, content) =>
      if !ok then Throw(Error(OPENAI_ERROR_PREFIX + bodyText))
      else
        match content
        case Unreadable(message) => Throw(Error(message))
        case Extracted(text) => Return(GenerateResponse(ParseBulletPoints(text, count), None))
  }

  /** OpenAIAPI.generateBulletPoints, with the network as `fetch`: a success
      carries no error. */
  function GenerateBulletPoints(api: OpenAIAPI, request: GenerateRequest, fetch: Fetch): (r: Outcome<GenerateResponse>)
    ensures r.Return? ==> r.value.error.None?
  {
    var prompt := Prompts.CreateResumeBulletsPrompt(request.parameters, Prompts.DEFAULT_OPTIONS);
    ReadResponse(fetch(BuildRequest(api, request, prompt)), request.parameters.bulletPointCount)
  }

  /** A success holds at most `bulletPointCount` bullets (for a non-negative
      count), each trimmed, non-empty and on one line. */
  lemma SuccessCarriesBullets(api: OpenAIAPI, request: GenerateRequest, fetch: Fetch)
    ensures var r := GenerateBulletPoints(api, request, fetch);
      r.Return? ==>
        (forall b | b in r.value.bulletPoints :: IsBullet(b)) &&
        (request.parameters.bulletPointCount >= 0 ==> |r.value.bulletPoints| <= request.parameters.bulletPointCount)
  {
    var prompt := Prompts.CreateResumeBulletsPrompt(request.parameters, Prompts.DEFAULT_OPTIONS);
    var answer := fetch(BuildRequest(api, request, prompt));
    assert GenerateBulletPoints(api, request, fetch) == ReadResponse(answer, request.parameters.bulletPointCount);
  }

  /** The model the request names, for an adapter built from the configuration as
      the dispatcher builds it: the configured model when non-empty, "gpt-4" when
      none is configured, and the empty text when the configured model is empty. */
  lemma ModelChoice(request: GenerateRequest, prompt: string)
    ensures var config := request.apiConfig;
      var body := BuildRequest(New(config.apiKey, config.model, config.maxTokens), request, prompt).body;
      && (config.model.Some? && config.model.value != "" ==> body.model == config.model.value)
      && (config.model.None? ==> body.model == "gpt-4")
      && (config.model == Some("") ==> body.model == "")
      && (config.maxTokens.None? ==> body.maxTokens == 1000)
      && (config.maxTokens.Some? ==> body.maxTokens == config.maxTokens.value)
  {
  }
}

/** AnthropicAPI of src/services/anthropic.ts. */
module Anthropic {
  import opened ApiTypes
  import opened Http
  import opened JsStrings
  import opened BulletParse
  import Prompts
  import opened ProviderText

  const MODELS: seq<GenerationModel> := [
    GenerationModel("Claude 3.5 Sonnet", "claude-3-5-sonnet-20241022", "Recommended"),
    GenerationModel("Claude 3.5 Haiku", "claude-3-5-haiku-20241022", "Faster, Cheaper"),
    GenerationModel("Claude 3 Opus", "claude-3-opus-20240229", "Best Quality")
  ]

  const DEFAULT_MAX_TOKENS: int := 1000

  datatype AnthropicAPI = AnthropicAPI(apiKey: string, model: string, maxTokens: int)

  /** The constructor: an undefined model or token bound takes its default. */
  function New(apiKey: string, model: Option<string>, maxTokens: Option<int>): (api: AnthropicAPI)
    ensures api.apiKey == apiKey
    ensures model.None? ==> api.model == "claude-3-5-sonnet-20241022"
    ensures model.Some? ==> api.model == model.value
    ensures maxTokens.None? ==> api.maxTokens == 1000
    ensures maxTokens.Some? ==> api.maxTokens == maxTokens.value
  {
    AnthropicAPI(apiKey, model.GetOr(MODELS[0].id), maxTokens.GetOr(DEFAULT_MAX_TOKENS))
  }

  /** The POST request `generateBulletPoints` sends with the prompt it built: the adapter's own model, and
      one user message holding one text block with the prompt. */
  function BuildRequest(api: AnthropicAPI, request: GenerateRequest, prompt: string): (r: HttpRequest)
    ensures r.body.AnthropicBody?
    ensures r.body.anthropicModel == api.model && r.body.anthropicMaxTokens == api.maxTokens
    ensures |r.body.anthropicMessages| == 1 && r.body.anthropicMessages[0].role == "user"
    ensures r.body.anthropicMessages[0].content == [TextBlock("text", prompt)]
  {
    HttpRequest(
      ANTHROPIC_ENDPOINT,
      [("x-api-key", api.apiKey), ("anthropic-version", "2023-06-01"),
       ("content-type", "application/json"), ("anthropic-dangerous-direct-browser-access", "true")],
      AnthropicBody(api.model, api.maxTokens, [AnthropicMessage("user", [TextBlock("text", prompt)])]))
  }

  /** The handling of `fetch`'s answer: a rejection, a non-ok status and an
      unreadable body throw; otherwise the content is parsed into at most
      `count` bullets and no error is set. */
  function ReadResponse(answer: FetchResult, count: int): (r: Outcome<GenerateResponse>)
    ensures answer.Response? && !answer.ok ==> r == Throw(Error(ANTHROPIC_ERROR_PREFIX + answer.bodyText))
    ensures answer.NetworkFailure? ==> r == Throw(answer.thrown)
    ensures r.Return? <==> answer.Response? && answer.ok && answer.content.Extracted?
    ensures r.Return? ==> r.value.error.None?
    ensures r.Return? ==> r.value.bulletPoints == ParseBulletPoints(answer.content.text, count)
  {
    match answer
    case NetworkFailure(thrown) => Throw(thrown)
    case Response(ok, bodyText, content) =>
      if !ok then Throw(Error(ANTHROPIC_ERROR_PREFIX + bodyText))
      else
        match content
        case Unreadable(message) => Throw(Error(message))
        case Extracted(text) => Return(GenerateResponse(ParseBulletPoints(text, count), None))
  }

  /** AnthropicAPI.generateBulletPoints, with the network as `fetch`: a success
      carries no error. */
  function GenerateBulletPoints(api: AnthropicAPI, request: GenerateRequest, fetch: Fetch): (r: Outcome<GenerateResponse>)
    ensures r.Return? ==> r.value.error.None?
  {
    var prompt := Prompts.CreateResumeBulletsPrompt(request.parameters, Prompts.DEFAULT_OPTIONS);
    ReadResponse(fetch(BuildRequest(api, request, prompt)), request.parameters.bulletPointCount)
  }

  /** A success holds at most `bulletPointCount` bullets (for a non-negative
      count), each trimmed, non-empty and on one line. */
  lemma SuccessCarriesBullets(api: AnthropicAPI, request: GenerateRequest, fetch: Fetch)
    ensures var r := GenerateBulletPoints(api, request, fetch);
      r.Return? ==>
        (forall b | b in r.value.bulletPoints :: IsBullet(b)) &&
        (request.parameters.bulletPointCount >= 0 ==> |r.value.bulletPoints| <= request.parameters.bulletPointCount)
  {
    var prompt := Prompts.CreateResumeBulletsPrompt(request.parameters, Prompts.DEFAULT_OPTIONS);
    var answer := fetch(BuildRequest(api, request, prompt));
    assert GenerateBulletPoints(api, request, fetch) == ReadResponse(answer, request.parameters.bulletPointCount);
  }

  /** The requested model is never consulted: the body names the adapter's model,
      the configured one when the dispatcher passes it, else the default. */
  lemma ModelChoice(request: GenerateRequest, prompt: string)
    ensures var config := request.apiConfig;
      var body := BuildRequest(New(config.apiKey, config.model, config.maxTokens), request, prompt).body;
      && (config.model.Some? ==> body.anthropicModel == config.model.value)
      && (config.model.None? ==> body.anthropicModel == "claude-3-5-sonnet-20241022")
      && (config.maxTokens.None? ==> body.anthropicMaxTokens == 1000)
      && (config.maxTokens.Some? ==> body.anthropicMaxTokens == config.maxTokens.value)
  {
  }
}
