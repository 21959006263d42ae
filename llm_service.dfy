/** The API's LLM service: the environment it hands to the chat client, the
    configuration it hands to the agent runner, and how their errors become
    HTTP errors. */
module LlmService {
  import opened Wrappers
  import opened Runtime
  import opened Text
  import opened Contracts
  import opened Server
  import opened LangGraph

  const CHAT_FALLBACK_MESSAGE := "LLM request failed"
  const AGENT_FALLBACK_MESSAGE := "LangGraph request failed"

  /** The service's own reading of `USE_LITELLM`: exactly `"true"` or `"1"`. */
  predicate StrictUseLiteLlm(config: Env) {
    Get(config, "USE_LITELLM") == Some("true") || Get(config, "USE_LITELLM") == Some("1")
  }

  /** The strict reading implies the client's `parseBoolean`, but not the
      other way round: `"TRUE"` turns the client's gateway mode on and leaves
      the service's flag off. */
  lemma StrictFlagImpliesParseBoolean(config: Env)
    ensures StrictUseLiteLlm(config) ==> ParseBoolean(Get(config, "USE_LITELLM"))
    ensures ParseBoolean(Some("TRUE")) && !StrictUseLiteLlm(map["USE_LITELLM" := "TRUE"])
  {
    assert CaseVariantOf("true", "true");
    assert CaseVariantOf("TRUE", "true");
  }

  /** The variables `getLlmEnv` sets. */
  const LLM_ENV_KEYS: set<string> := {
    "DEFAULT_PROVIDER", "OPENAI_API_KEY", "ANTHROPIC_API_KEY", "OPENAI_MODEL", "ANTHROPIC_MODEL",
    "USE_LITELLM", "LITELLM_BASE_URL", "LITELLM_API_KEY", "LITELLM_MASTER_KEY",
    "LITELLM_OPENAI_MODEL", "LITELLM_ANTHROPIC_MODEL"}

  /** `getLlmEnv`: every variable is set, `""` when the configuration lacks
      it, except `DEFAULT_PROVIDER`, which falls back to `litellm` or `openai`
      after the strict gateway flag. */
  function GetLlmEnv(config: Env): (env: Env)
    ensures env.Keys == LLM_ENV_KEYS
    ensures forall k :: k in LLM_ENV_KEYS && k != "DEFAULT_PROVIDER" ==>
              env[k] == Get(config, k).GetOr("")
    ensures env["DEFAULT_PROVIDER"] ==
              Get(config, "DEFAULT_PROVIDER").GetOr(if StrictUseLiteLlm(config) then "litellm" else "openai")
  {
    map k | k in LLM_ENV_KEYS ::
      if k == "DEFAULT_PROVIDER" then
        Get(config, k).GetOr(if StrictUseLiteLlm(config) then "litellm" else "openai")
      else Get(config, k).GetOr("")
  }

  /** Through `getLlmEnv`, the chat client never sees an absent variable:
      `LITELLM_MASTER_KEY` is never chosen (an unset `LITELLM_API_KEY` arrives
      as `""`), an unset model name arrives as `""` and replaces the built-in
      default, and gateway mode follows `parseBoolean` of the variable. */
  lemma ChatClientSeesEveryVariable(config: Env, c: LlmClient)
    requires c.Valid() && c.config == ConfigFromEnv(GetLlmEnv(config))
    ensures c.config.liteLlmApiKey == Some(Get(config, "LITELLM_API_KEY").GetOr(""))
    ensures "LITELLM_API_KEY" !in config ==> c.liteLlm.None?
    ensures "OPENAI_MODEL" !in config ==> c.openaiModel == ""
    ensures "ANTHROPIC_MODEL" !in config ==> c.anthropicModel == ""
    ensures "LITELLM_OPENAI_MODEL" !in config ==> c.liteLlmOpenaiModel == ""
    ensures "LITELLM_ANTHROPIC_MODEL" !in config ==> c.liteLlmAnthropicModel == ""
    ensures c.useLiteLlm == ParseBoolean(Get(config, "USE_LITELLM"))
  {
    var env := GetLlmEnv(config);
    assert "LITELLM_API_KEY" in env;
    assert Get(env, "USE_LITELLM") == Some(Get(config, "USE_LITELLM").GetOr(""));
  }

  /** The agent's configuration built in `agent`: the default provider is
      always set, `anthropic` or `litellm` when the variable (else the strict
      flag's fallback) names one and `openai` otherwise; the gateway key is
      `LITELLM_API_KEY`, else `LITELLM_MASTER_KEY`, else `""`; every other
      string is the variable or `""`. */
  function AgentConfig(config: Env): (c: LlmCoreConfig)
    ensures c.defaultProvider.Some?
    ensures var name := Get(config, "DEFAULT_PROVIDER").GetOr(if StrictUseLiteLlm(config) then "litellm" else "openai");
            && (c.defaultProvider.value == Anthropic <==> name == "anthropic")
            && (c.defaultProvider.value == LiteLlm <==> name == "litellm")
    ensures c.useLiteLlm == Some(StrictUseLiteLlm(config))
    ensures c.liteLlmApiKey == Some(Get(config, "LITELLM_API_KEY").OrElse(Get(config, "LITELLM_MASTER_KEY")).GetOr(""))
    ensures c.openaiApiKey == Some(Get(config, "OPENAI_API_KEY").GetOr(""))
    ensures c.anthropicApiKey == Some(Get(config, "ANTHROPIC_API_KEY").GetOr(""))
    ensures c.openaiModel == Some(Get(config, "OPENAI_MODEL").GetOr(""))
    ensures c.anthropicModel == Some(Get(config, "ANTHROPIC_MODEL").GetOr(""))
    ensures c.liteLlmBaseUrl == Some(Get(config, "LITELLM_BASE_URL").GetOr(""))
    ensures c.liteLlmOpenaiModel == Some(Get(config, "LITELLM_OPENAI_MODEL").GetOr(""))
    ensures c.liteLlmAnthropicModel == Some(Get(config, "LITELLM_ANTHROPIC_MODEL").GetOr(""))
  {
    var useLiteLlm := StrictUseLiteLlm(config);
    var name := Get(config, "DEFAULT_PROVIDER").GetOr(if useLiteLlm then "litellm" else "openai");
    LlmCoreConfig(
      Some(if name == "anthropic" then Anthropic else if name == "litellm" then LiteLlm else OpenAI),
      Some(Get(config, "OPENAI_API_KEY").GetOr("")),
      Some(Get(config, "ANTHROPIC_API_KEY").GetOr("")),
      Some(Get(config, "OPENAI_MODEL").GetOr("")),
      Some(Get(config, "ANTHROPIC_MODEL").GetOr("")),
      Some(useLiteLlm),
      Some(Get(config, "LITELLM_BASE_URL").GetOr("")),
      Some(Get(config, "LITELLM_API_KEY").OrElse(Get(config, "LITELLM_MASTER_KEY")).GetOr("")),
      Some(Get(config, "LITELLM_OPENAI_MODEL").GetOr("")),
      Some(Get(config, "LITELLM_ANTHROPIC_MODEL").GetOr("")))
  }

  /** With only `LITELLM_MASTER_KEY` set, the agent has a gateway key and the
      chat client has none. */
  lemma MasterKeyOnlyReachesAgent(config: Env, c: LlmClient)
    requires c.Valid() && c.config == ConfigFromEnv(GetLlmEnv(config))
    requires "LITELLM_API_KEY" !in config && Truthy(Get(config, "LITELLM_MASTER_KEY"))
    ensures Truthy(AgentConfig(config).liteLlmApiKey)
    ensures !Truthy(c.config.liteLlmApiKey) && c.liteLlm.None?
  {
    ChatClientSeesEveryVariable(config, c);
  }

  /** The chat client and the agent start from the same default provider
      when `DEFAULT_PROVIDER` is unset or names a provider; for any other
      value the agent uses `openai`, and the chat client `litellm` in gateway
      mode and `openai` otherwise. */
  lemma DefaultProvidersOfBothPaths(config: Env, c: LlmClient)
    requires c.Valid() && c.config == ConfigFromEnv(GetLlmEnv(config))
    ensures var name := Get(config, "DEFAULT_PROVIDER");
            && (name.None? || ParseProvider(name.value).Some? ==>
                  c.defaultProvider == AgentConfig(config).defaultProvider.value)
            && (name.Some? && ParseProvider(name.value).None? ==>
                  && AgentConfig(config).defaultProvider.value == OpenAI
                  && c.defaultProvider == if c.useLiteLlm then LiteLlm else OpenAI)
  {
    var env := GetLlmEnv(config);
    assert "DEFAULT_PROVIDER" in env;
  }

  /** The HTTP errors the service raises. */
  datatype HttpError = BadRequest(issues: seq<string>) | BadGateway(message: string)

  /** The `catch` blocks of `chat` and `agent`: a ZodError is a bad request
      carrying its issues; any other error a bad gateway with its message; a
      thrown non-error a bad gateway with the fallback text. */
  function MapError(thrown: Thrown, fallback: string): (e: HttpError)
    ensures e.BadRequest? <==> thrown.ZodError?
    ensures e.BadRequest? ==> e.issues == thrown.issues
    ensures e.BadGateway? ==> e.message == if thrown.Error? then thrown.message else fallback
  {
    match thrown
    case ZodError(issues) => BadRequest(issues)
    case Error(message) => BadGateway(message)
    case NonError => BadGateway(fallback)
  }

  class LlmService {
    /** The values `ConfigService` returns, by variable name. */
    const config: Env
    const client: LlmClient

    /** The client is the one `createLlmClientFromEnv` builds from `getLlmEnv`. */
    ghost predicate Valid() {
      client.Valid() && client.config == ConfigFromEnv(GetLlmEnv(config))
    }

    constructor (config: Env)
      ensures this.config == config && Valid() && fresh(client)
    {
      this.config := config;
      var client := CreateLlmClientFromEnv(GetLlmEnv(config));
      this.client := client;
    }

    /** `getProviders`: the client's list, which offers `litellm` exactly when
        `USE_LITELLM` reads as true and both gateway variables are non-empty,
        and then all three providers; otherwise each provider whose key is
        non-empty. */
    method GetProviders() returns (providers: seq<Provider>)
      requires Valid()
      ensures var gateway := && ParseBoolean(Get(config, "USE_LITELLM"))
                             && Truthy(Get(config, "LITELLM_API_KEY"))
                             && Truthy(Get(config, "LITELLM_BASE_URL"));
              && (LiteLlm in providers <==> gateway)
              && (OpenAI in providers <==> gateway || Truthy(Get(config, "OPENAI_API_KEY")))
              && (Anthropic in providers <==> gateway || Truthy(Get(config, "ANTHROPIC_API_KEY")))
      ensures InProviderOrder(providers)
    {
      ChatClientSeesEveryVariable(config, client);
      var env := GetLlmEnv(config);
      assert Truthy(Get(env, "LITELLM_API_KEY")) == Truthy(Get(config, "LITELLM_API_KEY"));
      assert Truthy(Get(env, "LITELLM_BASE_URL")) == Truthy(Get(config, "LITELLM_BASE_URL"));
      assert Truthy(Get(env, "OPENAI_API_KEY")) == Truthy(Get(config, "OPENAI_API_KEY"));
      assert Truthy(Get(env, "ANTHROPIC_API_KEY")) == Truthy(Get(config, "ANTHROPIC_API_KEY"));
      providers := client.GetAvailableProviders();
    }

    /** `chat`: the client's response as it is, or its error mapped: an invalid
        body is a bad request naming the failing fields, and a missing client
        is a bad gateway with the client's "not configured" message. */
    function Chat(raw: RawChatRequest, upstream: Upstream, createdAt: string): (r: Result<ChatResponse, HttpError>)
      ensures var outcome := client.Chat(raw, upstream, createdAt);
              && (r.Ok? <==> outcome.result.Ok?)
              && (r.Ok? ==> r.value == outcome.result.value)
              && (r.Err? ==> r.error == MapError(outcome.result.error, CHAT_FALLBACK_MESSAGE))
      ensures !ValidChatRequest(raw) ==> r == Err(BadRequest(ChatRequestIssues(raw)))
      ensures ValidChatRequest(raw) && client.Chat(raw, upstream, createdAt).sent.None? ==>
                r.Err? && r.error.BadGateway?
    {
      match client.Chat(raw, upstream, createdAt).result
      case Ok(response) => Ok(response)
      case Err(e) => Err(MapError(e, CHAT_FALLBACK_MESSAGE))
    }

    /** `agent`: the runner's response on `AgentConfig`, or its error mapped
        with the agent's fallback text. */
    function Agent(raw: RawAgentRequest, freshThreadId: string, invoke: GraphCall -> Sdk<JsValue>,
                   createdAt: string): (r: Result<AgentResponse, HttpError>)
      ensures var outcome := RunLangGraphAgent(raw, AgentConfig(config), freshThreadId, invoke, createdAt);
              && (r.Ok? <==> outcome.result.Ok?)
              && (r.Ok? ==> r.value == outcome.result.value)
              && (r.Err? ==> r.error == MapError(outcome.result.error, AGENT_FALLBACK_MESSAGE))
      ensures !ValidAgentRequest(raw) ==> r == Err(BadRequest(AgentRequestIssues(raw)))
    {
      match RunLangGraphAgent(raw, AgentConfig(config), freshThreadId, invoke, createdAt).result
      case Ok(response) => Ok(response)
      case Err(e) => Err(MapError(e, AGENT_FALLBACK_MESSAGE))
    }
  }
}
