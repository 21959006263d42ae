/** The agent runner: how it picks the chat model for a provider, how it turns
    the model's last message into text, and what it returns. Its routing is
    compared with the chat client's (`Server.LlmClient`): it never falls back to
    a direct client, reads the gateway settings even without the gateway flag,
    and resolves the default provider differently. */
module LangGraph {
  import opened Wrappers
  import opened Runtime
  import opened Text
  import opened Contracts
  import opened Server

  /** The LangChain chat model class a prepared model is built from. */
  datatype ModelKind = ChatOpenAIModel | ChatAnthropicModel

  /** The options a chat model is constructed with; `baseUrl` is the
      `configuration.baseURL` given to the gateway model only. */
  datatype ModelSpec = ModelSpec(
    kind: ModelKind,
    apiKey: string,
    model: string,
    temperature: Option<real>,
    maxTokens: Option<int>,
    baseUrl: Option<string>)

  /** `PreparedModel`: the model, the name it was built with, and the label. */
  datatype PreparedModel = PreparedModel(model: ModelSpec, modelName: string, provider: Provider)

  /** `useLiteLlmForProvider`: `litellm`, or `openai`/`anthropic` when the
      flag is exactly `true`. */
  predicate UsesGateway(provider: Provider, config: LlmCoreConfig) {
    provider == LiteLlm || (config.useLiteLlm == Some(true) && (provider == OpenAI || provider == Anthropic))
  }

  /** Both gateway settings are non-empty strings. */
  predicate GatewayConfigured(config: LlmCoreConfig) {
    Truthy(config.liteLlmApiKey) && Truthy(config.liteLlmBaseUrl)
  }

  /** The model name used when the request names none: the gateway's
      Anthropic-flavoured default only for `anthropic`, otherwise the one for
      the route; a configured name wins over the built-in default only when present. */
  function AgentDefaultModel(provider: Provider, config: LlmCoreConfig): string {
    if UsesGateway(provider, config) then
      if provider == Anthropic then config.liteLlmAnthropicModel.GetOr(DEFAULT_LITELLM_ANTHROPIC_MODEL)
      else config.liteLlmOpenaiModel.GetOr(DEFAULT_LITELLM_OPENAI_MODEL)
    else if provider == OpenAI then config.openaiModel.GetOr(DEFAULT_OPENAI_MODEL)
    else config.anthropicModel.GetOr(DEFAULT_ANTHROPIC_MODEL)
  }

  /** `prepareModel`: on the gateway route a missing gateway key or base URL
      throws the gateway's error whatever direct keys exist; a direct route
      throws its own error without its key; a prepared model is labelled with
      the provider asked for, is built with the name it reports, with the
      caller's temperature and token limit, and has a base URL exactly when it
      goes through the gateway. */
  function PrepareModel(provider: Provider, modelOverride: Option<string>, config: LlmCoreConfig,
                        temperature: Option<real>, maxTokens: Option<int>): (r: Result<PreparedModel, Thrown>)
    ensures UsesGateway(provider, config) ==>
      && (r.Err? <==> !GatewayConfigured(config))
      && (r.Err? ==> r.error == Error(LITELLM_NOT_CONFIGURED))
      && (r.Ok? ==> && r.value.model.kind == ChatOpenAIModel
                    && r.value.model.apiKey == config.liteLlmApiKey.value
                    && r.value.model.baseUrl == Some(NormalizeLiteLlmBaseUrl(config.liteLlmBaseUrl.value)))
    ensures !UsesGateway(provider, config) && provider == OpenAI ==>
      && (r.Err? <==> !Truthy(config.openaiApiKey))
      && (r.Err? ==> r.error == Error(OPENAI_NOT_CONFIGURED))
      && (r.Ok? ==> r.value.model.kind == ChatOpenAIModel && r.value.model.apiKey == config.openaiApiKey.value)
    ensures !UsesGateway(provider, config) && provider == Anthropic ==>
      && (r.Err? <==> !Truthy(config.anthropicApiKey))
      && (r.Err? ==> r.error == Error(ANTHROPIC_NOT_CONFIGURED))
      && (r.Ok? ==> r.value.model.kind == ChatAnthropicModel && r.value.model.apiKey == config.anthropicApiKey.value)
    ensures r.Ok? ==> && r.value.provider == provider
                      && r.value.model.model == r.value.modelName
                      && r.value.modelName == modelOverride.GetOr(AgentDefaultModel(provider, config))
                      && r.value.model.temperature == temperature && r.value.model.maxTokens == maxTokens
                      && (r.value.model.baseUrl.Some? <==> UsesGateway(provider, config))
  {
    if UsesGateway(provider, config) then
      if !Truthy(config.liteLlmApiKey) || !Truthy(config.liteLlmBaseUrl) then Err(Error(LITELLM_NOT_CONFIGURED))
      else
        var providerModel :=
          if provider == Anthropic then config.liteLlmAnthropicModel.GetOr(DEFAULT_LITELLM_ANTHROPIC_MODEL)
          else config.liteLlmOpenaiModel.GetOr(DEFAULT_LITELLM_OPENAI_MODEL);
        var modelName := modelOverride.GetOr(providerModel);
        Ok(PreparedModel(ModelSpec(ChatOpenAIModel, config.liteLlmApiKey.value, modelName, temperature, maxTokens,
                                   Some(NormalizeLiteLlmBaseUrl(config.liteLlmBaseUrl.value))),
                         modelName, provider))
    else if provider == OpenAI then
      if !Truthy(config.openaiApiKey) then Err(Error(OPENAI_NOT_CONFIGURED))
      else
        var modelName := modelOverride.GetOr(config.openaiModel.GetOr(DEFAULT_OPENAI_MODEL));
        Ok(PreparedModel(ModelSpec(ChatOpenAIModel, config.openaiApiKey.value, modelName, temperature, maxTokens, None),
                         modelName, provider))
    else if !Truthy(config.anthropicApiKey) then Err(Error(ANTHROPIC_NOT_CONFIGURED))
    else
      var modelName := modelOverride.GetOr(config.anthropicModel.GetOr(DEFAULT_ANTHROPIC_MODEL));
      Ok(PreparedModel(ModelSpec(ChatAnthropicModel, config.anthropicApiKey.value, modelName, temperature, maxTokens, None),
                       modelName, provider))
  }

  /** When the gateway flag is on exactly when the gateway is configured, the
      agent prepares a model exactly when the chat client has a client for the
      same provider, with the same key, base URL, model name and SDK family,
      and otherwise fails with the same error. */
  lemma AgentRoutesLikeChat(c: LlmClient, p: Provider, input: ChatRequest)
    requires c.Valid()
    requires c.config.useLiteLlm == Some(true) <==> GatewayConfigured(c.config)
    ensures var r := PrepareModel(p, input.model, c.config, input.temperature, input.maxTokens);
            var route := c.RouteFor(p);
            && (r.Ok? <==> c.ClientFor(route).Some?)
            && (r.Err? ==> r.error == Error(c.NotConfiguredMessage(route)))
            && (r.Ok? ==> && r.value.modelName == c.ModelFor(p, input)
                          && r.value.model.apiKey == c.ClientFor(route).value.apiKey
                          && r.value.model.baseUrl == c.ClientFor(route).value.baseUrl
                          && (r.value.model.kind == ChatAnthropicModel <==> route == DirectAnthropic))
  {
    if c.useLiteLlm {
      assert c.liteLlm.Some?;
    }
  }

  /** With the gateway flag on but the gateway unconfigured, the agent fails
      for `openai` and `anthropic` even when the direct key is there, while the
      chat client serves the same request directly. */
  lemma AgentHasNoDirectFallback(c: LlmClient, p: Provider, input: ChatRequest)
    requires c.Valid()
    requires c.config.useLiteLlm == Some(true) && !GatewayConfigured(c.config)
    requires p != LiteLlm && Truthy(if p == OpenAI then c.config.openaiApiKey else c.config.anthropicApiKey)
    ensures PrepareModel(p, input.model, c.config, input.temperature, input.maxTokens)
              == Err(Error(LITELLM_NOT_CONFIGURED))
    ensures c.RouteFor(p) != Gateway && c.ClientFor(c.RouteFor(p)).Some?
  {
  }

  /** Without the gateway flag but with the gateway settings, the agent serves
      `litellm` through the gateway, while the chat client has no gateway client. */
  lemma AgentUsesGatewayWithoutFlag(c: LlmClient, input: ChatRequest)
    requires c.Valid()
    requires c.config.useLiteLlm != Some(true) && GatewayConfigured(c.config)
    ensures var r := PrepareModel(LiteLlm, input.model, c.config, input.temperature, input.maxTokens);
            r.Ok? && r.value.model.baseUrl.Some?
    ensures c.ClientFor(c.RouteFor(LiteLlm)).None?
  {
  }

  /** The provider the agent serves: the request's, else the configured
      default, else `openai` (never `litellm` by default). */
  function AgentProvider(input: ChatRequest, config: LlmCoreConfig): (p: Provider)
    ensures input.provider.None? && config.defaultProvider.None? ==> p == OpenAI
  {
    input.provider.GetOr(config.defaultProvider.GetOr(OpenAI))
  }

  /** The agent resolves the same provider as the chat client except when the
      request and the configuration both leave it open and gateway mode is on:
      the chat client then picks `litellm`, the agent `openai`. */
  lemma AgentProviderMatchesChat(c: LlmClient, input: ChatRequest)
    requires c.Valid()
    ensures AgentProvider(input, c.config) == input.provider.GetOr(c.defaultProvider)
            <==> input.provider.Some? || c.config.defaultProvider.Some? || !c.useLiteLlm
  {
  }

  /** One entry of the last message's content array: a string as it is, the
      string `text` of an object of any `type`, otherwise `""`. */
  function MessagePartText(part: JsValue): (t: string)
    ensures part.Str? ==> t == part.s
    ensures !part.Str? && t != "" ==> part.Obj? && "text" in part.fields && part.fields["text"] == Str(t)
    ensures part.Obj? && "text" in part.fields && part.fields["text"].Str? ==> t == part.fields["text"].s
  {
    match part
    case Str(s) => s
    case Obj(f) => if "text" in f && f["text"].Str? then f["text"].s else ""
    case _ => ""
  }

  function MessagePartTexts(items: seq<JsValue>): (ts: seq<string>)
    ensures |ts| == |items|
    ensures forall i :: 0 <= i < |items| ==> ts[i] == MessagePartText(items[i])
  {
    seq(|items|, i requires 0 <= i < |items| => MessagePartText(items[i]))
  }

  /** `normalizeMessageContent`: a string is returned as it is, untrimmed; an
      array gives one line per entry, joined with `"\n"` and trimmed; anything
      else gives `""`. */
  function NormalizeMessageContent(content: JsValue): (r: string)
    ensures content.Str? ==> r == content.s
    ensures content.Arr? ==> IsTrimmed(r) && r == Trim(Join(MessagePartTexts(content.items), "\n"))
    ensures !content.Str? && !content.Arr? ==> r == ""
  {
    match content
    case Str(s) => s
    case Arr(items) => Trim(Join(MessagePartTexts(items), "\n"))
    case _ => ""
  }

  /** A text part the chat client keeps is kept by the agent with the same text. */
  lemma AgentKeepsChatTextParts(part: JsValue)
    ensures OpenAiPartText(part) != "" ==> MessagePartText(part) == OpenAiPartText(part)
  {
  }

  /** On a plain string reply the agent and the chat client agree exactly when
      the string has no surrounding whitespace: only the chat client trims it. */
  lemma StringReplyAgreesIffTrimmed(s: string)
    ensures NormalizeMessageContent(Str(s)) == ExtractTextFromOpenAiContent(Str(s)) <==> IsTrimmed(s)
  {
    if IsTrimmed(s) {
      TrimKeepsTrimmed(s);
    }
  }

  /** On an array reply whose entries both readers see alike, the agent's text
      is the chat client's. */
  lemma ArrayReplyAgrees(items: seq<JsValue>)
    requires forall i :: 0 <= i < |items| ==> MessagePartText(items[i]) == OpenAiPartText(items[i])
    ensures NormalizeMessageContent(Arr(items)) == ExtractTextFromOpenAiContent(Arr(items))
  {
    assert MessagePartTexts(items) == OpenAiPartTexts(items);
  }

  /** A bare string entry and a text object without `type` are both kept by the agent. */
  lemma AgentKeepsUntypedParts()
    ensures NormalizeMessageContent(Arr([Str("A"), Obj(map["text" := Str("B")])])) == "A\nB"
  {
    var items := [Str("A"), Obj(map["text" := Str("B")])];
    assert MessagePartTexts(items) == ["A", "B"] by {
      assert MessagePartText(items[1]) == "B";
    }
    assert Join(["A", "B"], "\n") == "A\nB" by {
      assert Join(["A", "B"], "\n") == "A" + "\n" + Join(["B"], "\n");
    }
    assert IsTrimmed("A\nB");
    TrimKeepsTrimmed("A\nB");
  }

  /** The chat client reads the same array as empty: neither entry is a typed text part. */
  lemma ChatDropsUntypedParts()
    ensures ExtractTextFromOpenAiContent(Arr([Str("A"), Obj(map["text" := Str("B")])])) == ""
  {
    var items := [Str("A"), Obj(map["text" := Str("B")])];
    assert OpenAiPartTexts(items) == ["", ""] by {
      assert OpenAiPartText(items[0]) == "";
      assert OpenAiPartText(items[1]) == "";
    }
    AllEmptyJoin(["", ""], "\n");
  }

  /** The graph run: the prepared model, the input messages and the thread id
      it is keyed by. */
  datatype GraphCall = GraphCall(model: ModelSpec, messages: seq<ChatMessage>, threadId: string)

  /** What an agent request did: the graph run it started, if any, and what it
      returned or threw. */
  datatype AgentOutcome = AgentOutcome(invoked: Option<GraphCall>, result: Result<AgentResponse, Thrown>)

  /** `runLangGraphAgent`. `freshThreadId` stands for `randomUUID()`, `invoke`
      for the one-node graph, giving the content of the last message (or its
      rejection), and `createdAt` for the timestamp. Validation and model
      preparation fail before the graph runs; otherwise the graph runs once
      with the prompt messages under the request's thread id, else the fresh
      one; the response carries the resolved provider, the prepared model
      name (not one reported upstream) and that same thread id. */
  function RunLangGraphAgent(raw: RawAgentRequest, config: LlmCoreConfig, freshThreadId: string,
                             invoke: GraphCall -> Sdk<JsValue>, createdAt: string): (r: AgentOutcome)
    ensures ParseAgentRequest(raw).Err? ==> r == AgentOutcome(None, Err(ParseAgentRequest(raw).error))
    ensures ParseAgentRequest(raw).Ok? ==>
      var input := ParseAgentRequest(raw).value;
      var p := AgentProvider(input.chat, config);
      var prepared := PrepareModel(p, input.chat.model, config, input.chat.temperature, input.chat.maxTokens);
      && (prepared.Err? ==> r == AgentOutcome(None, Err(prepared.error)))
      && (prepared.Ok? ==>
            && r.invoked == Some(GraphCall(prepared.value.model,
                                           PromptMessages(input.chat.systemPrompt, input.chat.message),
                                           input.threadId.GetOr(freshThreadId)))
            && (r.result.Err? <==> invoke(r.invoked.value).Raised?)
            && (r.result.Err? ==> r.result.error == invoke(r.invoked.value).thrown)
            && (r.result.Ok? ==> && r.result.value.provider == p
                                 && r.result.value.model == prepared.value.modelName
                                 && r.result.value.threadId == r.invoked.value.threadId
                                 && r.result.value.output == NormalizeMessageContent(invoke(r.invoked.value).value)
                                 && r.result.value.createdAt == createdAt))
  {
    match ParseAgentRequest(raw)
    case Err(e) => AgentOutcome(None, Err(e))
    case Ok(input) =>
      var provider := AgentProvider(input.chat, config);
      var threadId := input.threadId.GetOr(freshThreadId);
      match PrepareModel(provider, input.chat.model, config, input.chat.temperature, input.chat.maxTokens)
      case Err(e) => AgentOutcome(None, Err(e))
      case Ok(prepared) =>
        var call := GraphCall(prepared.model, PromptMessages(input.chat.systemPrompt, input.chat.message), threadId);
        AgentOutcome(Some(call),
          match invoke(call)
          case Raised(e) => Err(e)
          case Returned(content) =>
            Ok(AgentResponse(prepared.provider, prepared.modelName, NormalizeMessageContent(content),
                             threadId, createdAt)))
  }

  /** A supplied thread id comes back unchanged, and the response satisfies
      `AgentResponseSchema` whenever a thread id was supplied or the fresh one
      is non-empty. */
  lemma AgentEchoesThreadId(raw: RawAgentRequest, config: LlmCoreConfig, freshThreadId: string,
                            invoke: GraphCall -> Sdk<JsValue>, createdAt: string)
    ensures var r := RunLangGraphAgent(raw, config, freshThreadId, invoke, createdAt);
            r.result.Ok? ==>
              && (raw.threadId.Some? ==> r.result.value.threadId == raw.threadId.value)
              && (raw.threadId.None? ==> r.result.value.threadId == freshThreadId)
              && (raw.threadId.Some? || freshThreadId != "" ==> ValidAgentResponse(r.result.value))
  {
  }
}
