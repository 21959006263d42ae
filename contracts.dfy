/** The request and response schemas shared by the chat client and the agent:
    the provider enum, what a chat or agent request must satisfy to be parsed,
    and what a response carries. */
module Contracts {
  import opened Wrappers
  import opened Runtime

  /** The three provider labels of `LlmProviderSchema`. */
  datatype Provider = OpenAI | Anthropic | LiteLlm

  function ProviderName(p: Provider): string {
    match p
    case OpenAI => "openai"
    case Anthropic => "anthropic"
    case LiteLlm => "litellm"
  }

  /** The enum check: exactly the three names are accepted. */
  function ParseProvider(s: string): (r: Option<Provider>)
    ensures r.Some? <==> s == "openai" || s == "anthropic" || s == "litellm"
    ensures r.Some? ==> ProviderName(r.value) == s
  {
    if s == "openai" then Some(OpenAI)
    else if s == "anthropic" then Some(Anthropic)
    else if s == "litellm" then Some(LiteLlm)
    else None
  }

  /** Every provider's name parses back to that provider. */
  lemma ProviderNameRoundTrip(p: Provider)
    ensures ParseProvider(ProviderName(p)) == Some(p)
  {
  }

  /** A chat request body as it arrives: each field absent or of its JSON type. */
  datatype RawChatRequest = RawChatRequest(
    message: Option<string>,
    provider: Option<string>,
    model: Option<string>,
    systemPrompt: Option<string>,
    temperature: Option<real>,
    maxTokens: Option<real>)

  /** A parsed chat request. */
  datatype ChatRequest = ChatRequest(
    message: string,
    provider: Option<Provider>,
    model: Option<string>,
    systemPrompt: Option<string>,
    temperature: Option<real>,
    maxTokens: Option<int>)

  /** `z.number().int()`: a number without a fractional part. */
  predicate IsInteger(x: real) {
    x.Floor as real == x
  }

  predicate MessageOk(m: Option<string>) { m.Some? && |m.value| >= 1 }

  predicate ProviderOk(p: Option<string>) { p.None? || ParseProvider(p.value).Some? }

  /** A `z.string().min(1).optional()` field. */
  predicate NonEmptyIfPresent(s: Option<string>) { s.None? || |s.value| >= 1 }

  predicate TemperatureOk(t: Option<real>) { t.None? || 0.0 <= t.value <= 2.0 }

  predicate MaxTokensOk(m: Option<real>) {
    m.None? || (IsInteger(m.value) && 0.0 < m.value <= 4096.0)
  }

  /** `ChatRequestSchema`: every field constraint holds; `systemPrompt` may be any string. */
  predicate ValidChatRequest(raw: RawChatRequest) {
    && MessageOk(raw.message)
    && ProviderOk(raw.provider)
    && NonEmptyIfPresent(raw.model)
    && TemperatureOk(raw.temperature)
    && MaxTokensOk(raw.maxTokens)
  }

  /** The path `name` reported when its check fails, nothing when it passes. */
  function Issue(ok: bool, name: string): (r: seq<string>)
    ensures forall f :: f in r <==> !ok && f == name
  {
    if ok then [] else [name]
  }

  /** The paths of the failing fields, in schema order, as the flattened ZodError lists them. */
  function ChatRequestIssues(raw: RawChatRequest): (issues: seq<string>)
    ensures issues == [] <==> ValidChatRequest(raw)
    ensures "message" in issues <==> !MessageOk(raw.message)
    ensures "provider" in issues <==> !ProviderOk(raw.provider)
    ensures "model" in issues <==> !NonEmptyIfPresent(raw.model)
    ensures "temperature" in issues <==> !TemperatureOk(raw.temperature)
    ensures "maxTokens" in issues <==> !MaxTokensOk(raw.maxTokens)
    ensures "systemPrompt" !in issues
  {
    var a := Issue(MessageOk(raw.message), "message");
    var b := Issue(ProviderOk(raw.provider), "provider");
    var c := Issue(NonEmptyIfPresent(raw.model), "model");
    var d := Issue(TemperatureOk(raw.temperature), "temperature");
    var e := Issue(MaxTokensOk(raw.maxTokens), "maxTokens");
    assert forall f :: f in a + b + c + d + e <==> f in a || f in b || f in c || f in d || f in e;
    a + b + c + d + e
  }

  /** `ChatRequestSchema.parse`: the typed request, or a ZodError naming the failing fields. */
  function ParseChatRequest(raw: RawChatRequest): (r: Result<ChatRequest, Thrown>)
    ensures r.Ok? <==> ValidChatRequest(raw)
    ensures r.Err? ==> r.error == ZodError(ChatRequestIssues(raw)) && r.error.issues != []
    ensures r.Ok? ==> && r.value.message == raw.message.value && |r.value.message| >= 1
                      && (r.value.provider.Some? <==> raw.provider.Some?)
                      && (r.value.provider.Some? ==> ProviderName(r.value.provider.value) == raw.provider.value)
                      && r.value.model == raw.model
                      && (r.value.model.Some? ==> r.value.model.value != "")
                      && r.value.systemPrompt == raw.systemPrompt
                      && r.value.temperature == raw.temperature
                      && (r.value.maxTokens.Some? <==> raw.maxTokens.Some?)
                      && (r.value.maxTokens.Some? ==> r.value.maxTokens.value as real == raw.maxTokens.value
                                                      && 1 <= r.value.maxTokens.value <= 4096)
  {
    if !ValidChatRequest(raw) then Err(ZodError(ChatRequestIssues(raw)))
    else
      Ok(ChatRequest(
        raw.message.value,
        if raw.provider.Some? then ParseProvider(raw.provider.value) else None,
        raw.model,
        raw.systemPrompt,
        raw.temperature,
        if raw.maxTokens.Some? then Some(raw.maxTokens.value.Floor) else None))
  }

  /** An agent request body: the chat fields plus an optional thread id. */
  datatype RawAgentRequest = RawAgentRequest(chat: RawChatRequest, threadId: Option<string>)

  datatype AgentRequest = AgentRequest(chat: ChatRequest, threadId: Option<string>)

  /** `AgentRequestSchema`: `ChatRequestSchema` extended with a non-empty optional `threadId`. */
  predicate ValidAgentRequest(raw: RawAgentRequest) {
    ValidChatRequest(raw.chat) && NonEmptyIfPresent(raw.threadId)
  }

  function AgentRequestIssues(raw: RawAgentRequest): (issues: seq<string>)
    ensures issues == [] <==> ValidAgentRequest(raw)
  {
    ChatRequestIssues(raw.chat) + Issue(NonEmptyIfPresent(raw.threadId), "threadId")
  }

  /** `AgentRequestSchema.parse`. */
  function ParseAgentRequest(raw: RawAgentRequest): (r: Result<AgentRequest, Thrown>)
    ensures r.Ok? <==> ValidAgentRequest(raw)
    ensures r.Err? ==> r.error == ZodError(AgentRequestIssues(raw))
    ensures r.Ok? ==> && ParseChatRequest(raw.chat) == Ok(r.value.chat)
                      && r.value.threadId == raw.threadId
                      && (r.value.threadId.Some? ==> r.value.threadId.value != "")
  {
    match ParseChatRequest(raw.chat)
    case Err(_) => Err(ZodError(AgentRequestIssues(raw)))
    case Ok(chat) =>
      if NonEmptyIfPresent(raw.threadId) then Ok(AgentRequest(chat, raw.threadId))
      else Err(ZodError(AgentRequestIssues(raw)))
  }

  /** An agent request without a thread id is accepted exactly when the same
      fields are accepted as a chat request; with one, it also needs it non-empty. */
  lemma AgentExtendsChat(raw: RawAgentRequest)
    ensures ParseAgentRequest(raw).Ok? <==>
            ParseChatRequest(raw.chat).Ok? && (raw.threadId.None? || raw.threadId.value != "")
  {
  }

  /** `ChatResponseSchema`; the provider is one of the three by its type. */
  datatype ChatResponse = ChatResponse(provider: Provider, model: string, output: string, createdAt: string)

  /** `AgentResponseSchema`: a chat response with a thread id. */
  datatype AgentResponse = AgentResponse(
    provider: Provider, model: string, output: string, threadId: string, createdAt: string)

  /** The one constraint `AgentResponseSchema` adds: the thread id is non-empty. */
  predicate ValidAgentResponse(r: AgentResponse) {
    |r.threadId| >= 1
  }
}
