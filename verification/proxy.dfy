/** `generateBulletPoints` of src/services/proxy.ts: picks the adapter the
    configuration names and turns whatever it throws into an error response. */
module Proxy {
  import opened ApiTypes
  import opened Http
  import OpenAI
  import Anthropic

  /** The BulletPointService the dispatcher constructs. */
  datatype Service = AnthropicService(anthropic: Anthropic.AnthropicAPI) | OpenAIService(openai: OpenAI.OpenAIAPI)

  /** The `switch` on the provider: an adapter built from the configuration, or
      `None` for a provider it does not know. */
  function SelectService(config: UserAPIConfig): (s: Option<Service>)
    ensures s.None? <==> config.provider != ANTHROPIC && config.provider != OPENAI
    ensures config.provider == ANTHROPIC ==>
      s == Some(AnthropicService(Anthropic.New(config.apiKey, config.model, config.maxTokens)))
    ensures config.provider == OPENAI ==>
      s == Some(OpenAIService(OpenAI.New(config.apiKey, config.model, config.maxTokens)))
  {
    if config.provider == ANTHROPIC then
      Some(AnthropicService(Anthropic.New(config.apiKey, config.model, config.maxTokens)))
    else if config.provider == OPENAI then
      Some(OpenAIService(OpenAI.New(config.apiKey, config.model, config.maxTokens)))
    else None
  }

  /** `service.generateBulletPoints(request)`: either adapter returns a
      response only without an error. */
  function Call(service: Service, request: GenerateRequest, fetch: Fetch): (r: Outcome<GenerateResponse>)
    ensures r.Return? ==> r.value.error.None?
  {
    match service
    case AnthropicService(api) => Anthropic.GenerateBulletPoints(api, request, fetch)
    case OpenAIService(api) => OpenAI.GenerateBulletPoints(api, request, fetch)
  }

  /** The `try`/`catch` around the call: a returned response passes unchanged, a
      thrown `Error` becomes its message and anything else "Unknown error", with
      no bullets. */
  function Normalise(o: Outcome<GenerateResponse>): (r: GenerateResponse)
    ensures o.Return? ==> r == o.value
    ensures o.Throw? ==> r.bulletPoints == [] && r.error.Some?
    ensures o.Throw? && o.thrown.Error? ==> r.error == Some(o.thrown.message)
    ensures o.Throw? && o.thrown.NonError? ==> r.error == Some("Unknown error")
  {
    match o
    case Return(response) => response
    case Throw(Error(message)) => GenerateResponse([], Some(message))
    case Throw(NonError) => GenerateResponse([], Some("Unknown error"))
  }

  /** The dispatcher, with the network as `fetch`. An unknown provider throws
      before the `try`; a known one never lets an exception through. */
  function GenerateBulletPoints(request: GenerateRequest, fetch: Fetch): (r: Outcome<GenerateResponse>)
    ensures r.Throw? <==> request.apiConfig.provider != ANTHROPIC && request.apiConfig.provider != OPENAI
  {
    match SelectService(request.apiConfig)
    case None => Throw(Error("Unsupported provider: " + request.apiConfig.provider))
    case Some(service) => Return(Normalise(Call(service, request, fetch)))
  }

  /** The error an unknown provider throws names it. */
  lemma UnsupportedProvider(request: GenerateRequest, fetch: Fetch)
    requires request.apiConfig.provider != ANTHROPIC && request.apiConfig.provider != OPENAI
    ensures GenerateBulletPoints(request, fetch) ==
      Throw(Error("Unsupported provider: " + request.apiConfig.provider))
  {
  }

  /** For a known provider the response has an error exactly when the adapter threw. */
  lemma ErrorOnlyFromThrow(request: GenerateRequest, fetch: Fetch)
    requires request.apiConfig.provider == ANTHROPIC || request.apiConfig.provider == OPENAI
    ensures var r := GenerateBulletPoints(request, fetch);
      r.Return? && (r.value.error.Some? <==> Call(SelectService(request.apiConfig).value, request, fetch).Throw?)
  {
  }
}
