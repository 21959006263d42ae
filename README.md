# LLM platform core — a Dafny model

This project models the decision logic of a small LLM platform. The platform is built from these parts:

- a chat client that routes a request to OpenAI, to Anthropic, or through a LiteLLM gateway (`packages/llm-core/src/server.ts`);
- a LangGraph agent that routes the same providers by its own rules (`packages/llm-core/src/langgraph.ts`);
- the request and response schemas (`packages/llm-core/src/contracts.ts`);
- a Qdrant vector store (`packages/llm-core/src/vector.ts`);
- the API services: chat and agent (`apps/api/src/llm/llm.service.ts`), retrieval (`apps/api/src/rag/rag.service.ts`) and dependency health (`apps/api/src/infra/infra.service.ts`);
- the web app's sign-in gate (`apps/web/middleware.ts`, `apps/web/auth.ts`).

Every SDK call becomes an abstract result. This covers OpenAI, Anthropic, LangChain, Qdrant, pg, ioredis, neo4j and `fetch`. Each call is a function-typed parameter, or a datatype field holding such a function. The model states the decisions taken around those calls:

- which transport serves a request;
- which model name, key and base URL are sent;
- which "not configured" error is raised, before any call is made;
- how an outcome is labelled, trimmed and mapped to an HTTP error.

Environment variables form a `map<string, string>`. An unset variable (`None`) stays distinct from one set to `""` (`Some("")`). This matters because `??` falls back only on an absent value, while `if (x)` also rejects `""`.

Modules:

- `Wrappers`: Option, Result and JS truthiness.
- `Runtime`: JS values, thrown errors, SDK outcomes and environment lookup.
- `Text`: JS `trim`, the `/\/+$/` strip, `join`/`split` and ASCII `toLowerCase`.
- One module per source file: `Server`, `Contracts`, `LangGraph`, `Vector`, `LlmService`, `RagService`, `Infra`, `Middleware` and `Auth`.

State that the source changes in place is modelled with classes:

- The readonly fields of `LlmClient`, `LlmService` and `InfraService` are `const` fields.
- The Qdrant server's collections are a `map` field, which `EnsureCollection` reassigns.
- The ioredis connection status is a field, which `CheckRedis` updates.

## Model

| member | source | states |
|---|---|---|
| Server.ParseBoolean | packages/llm-core/src/server.ts:29-35 | true exactly for `"1"` or any ASCII casing of `"true"`; unset and `""` give false |
| Server.NormalizeLiteLlmBaseUrl | packages/llm-core/src/server.ts:37-40 | the result is trimmed, ends in `/v1` and never in `/`; it is the trimmed, slash-stripped input itself iff that already ends in `/v1`, and that input with `/v1` appended otherwise |
| Server.NormalizeLiteLlmIdempotent | packages/llm-core/src/server.ts:37-40 | normalising twice is normalising once |
| Server.NormalizeReplacesSlash | packages/llm-core/src/server.ts:37-40 | `http://host:8000/` becomes `http://host:8000/v1` |
| Server.NormalizeKeepsV1 | packages/llm-core/src/server.ts:37-40 | a URL already ending in `/v1` is unchanged |
| Server.NormalizeStripsAfterV1 | packages/llm-core/src/server.ts:37-40 | `…/v1/` becomes `…/v1`, with no second `/v1` |
| Server.OpenAiPartText | packages/llm-core/src/server.ts:53-65 | a part yields non-empty text only if it is an object with `type` `"text"` and that string as `text`; conversely such an object always yields its `text` |
| Server.OpenAiPartTexts | packages/llm-core/src/server.ts:51-66 | one entry per part, in order, each that part's text or `""` |
| Server.ExtractTextFromOpenAiContent | packages/llm-core/src/server.ts:42-69 | the result is always trimmed; a string is returned trimmed; anything that is neither a string nor an array gives `""` |
| Server.ExtractedLinesMatchEntries | packages/llm-core/src/server.ts:52-68 | when no part text holds a newline and the outer parts carry no edge whitespace, splitting the result on `\n` gives back exactly one line per part, dropped parts as empty lines |
| Server.ExtractTwoTextParts | packages/llm-core/src/server.ts:52-68 | two text parts `A`, `B` give `A\nB` |
| Server.ExtractKeepsEmptyLine | packages/llm-core/src/server.ts:52-68 | `[a, non-text part, b]` gives `a\n\nb` for any texts with clean outer ends: a dropped part still takes its place in the join |
| Server.AnthropicBlockTexts | packages/llm-core/src/server.ts:198-205 | one entry per content block, its text for a text block and `""` otherwise |
| Server.AnthropicOutput | packages/llm-core/src/server.ts:198-207 | the output is trimmed, and is `""` when no block is a text block |
| Server.AnthropicDropsImage | packages/llm-core/src/server.ts:198-207 | a trimmed non-empty text block followed by any non-text block gives the text alone |
| Server.AnthropicLinesMatchBlocks | packages/llm-core/src/server.ts:198-207 | when no block text holds a newline and the outer blocks are texts with clean outer ends, splitting the output on `\n` gives back one line per block, non-text blocks as empty lines |
| Server.PromptMessages | packages/llm-core/src/server.ts:169-174 | a system message comes first exactly when the system prompt is truthy, and the last message is always the user's message |
| Server.LlmClient.constructor | packages/llm-core/src/server.ts:90-114 | the client keeps its configuration and establishes `Valid`: defaults apply on absent values only, and each client exists exactly when its key (and, for the gateway, the flag and base URL) is non-empty |
| Server.LlmClient.GetAvailableProviders | packages/llm-core/src/server.ts:116-134 | `litellm` is listed iff the gateway exists; `openai`/`anthropic` iff the gateway or their own client exists; no duplicates, in the order `litellm`, `openai`, `anthropic` |
| Server.LlmClient.ChatWithOpenAI | packages/llm-core/src/server.ts:160-183 | without the OpenAI client it fails with `OPENAI_API_KEY is not configured` and makes no call; otherwise it sends the request's model (else the configured one), temperature, max tokens and prompt messages; an SDK rejection is passed on unchanged, and an answer gives `ResponseOf` it labelled `openai`: the reply's model and its extracted text |
| Server.LlmClient.ChatWithAnthropic | packages/llm-core/src/server.ts:185-215 | without the Anthropic client it fails with `ANTHROPIC_API_KEY is not configured` and makes no call; otherwise `max_tokens` defaults to 1024, the system prompt is passed through, and there is one user message; an SDK rejection is passed on, and an answer gives the reply's model and `AnthropicOutput` of its blocks, labelled `anthropic` |
| Server.LlmClient.ChatWithLiteLlm | packages/llm-core/src/server.ts:217-246 | without the gateway it fails with the LiteLLM message and makes no call; otherwise it sends to the gateway with the request's model or the given default; an SDK rejection is passed on, and an answer gives the reply's model and extracted text under the given provider label |
| Server.LlmClient.Chat | packages/llm-core/src/server.ts:136-158 | a schema failure is passed on with no call; otherwise the resolved provider picks the route; a call is made iff that route's client exists, else the route's not-configured error; the call uses that client and `ModelFor`'s model, an SDK failure is passed on unchanged, and a response is `ResponseOf` the reply under the resolved provider |
| Server.LiteLlmAlwaysViaGateway | packages/llm-core/src/server.ts:149-154 | a `litellm` request is labelled `litellm`, fails without the gateway and never reaches a direct client |
| Server.ResponseOf | packages/llm-core/src/server.ts:177-182 | a response exists iff the SDK answers; it carries the given label and time, the model the reply reports, and the reply's text extracted by the OpenAI rules or by `AnthropicOutput`, always trimmed |
| Server.NoCallNoDependence | packages/llm-core/src/server.ts:161-163 | when no call is made, the outcome does not depend on the upstream at all: the guards fail before any SDK call |
| Server.ConfigFromEnv | packages/llm-core/src/server.ts:249-269 | an unknown `DEFAULT_PROVIDER` becomes absent, the flag is `ParseBoolean(USE_LITELLM)`, the gateway key is `LITELLM_API_KEY ?? LITELLM_MASTER_KEY`, and every other field is its variable's value as is |
| Server.CreateLlmClientFromEnv | packages/llm-core/src/server.ts:249-269 | returns a fresh valid client on `ConfigFromEnv(env)`, whose flag is `ParseBoolean(USE_LITELLM)` |
| Contracts.ParseProvider | packages/llm-core/src/contracts.ts:3 | accepts exactly `openai`, `anthropic` and `litellm`, and the accepted provider's name is the input |
| Contracts.ProviderNameRoundTrip | packages/llm-core/src/contracts.ts:3 | parsing a provider's name gives that provider back |
| Contracts.ChatRequestIssues | packages/llm-core/src/contracts.ts:6-13 | no issues iff the request is valid; each field is named iff its own rule fails; `systemPrompt` is never named |
| Contracts.ParseChatRequest | packages/llm-core/src/contracts.ts:6-13 | succeeds iff the message is non-empty, the provider is in the enum, the model is non-empty when present, the temperature is in [0, 2] and max tokens is an integer in 1..4096; the parsed request keeps every field; a failure is a ZodError carrying the issues |
| Contracts.AgentRequestIssues | packages/llm-core/src/contracts.ts:24-26 | no issues iff the agent request is valid |
| Contracts.ParseAgentRequest | packages/llm-core/src/contracts.ts:24-26 | succeeds iff valid; the chat part parses as a chat request, and the thread id is kept and non-empty when present |
| Contracts.AgentExtendsChat | packages/llm-core/src/contracts.ts:24-26 | an agent request is valid iff its chat part is and its thread id is absent or non-empty |
| LangGraph.PrepareModel | packages/llm-core/src/langgraph.ts:65-140 | on the gateway route it fails iff the gateway key or base URL is empty, with the LiteLLM message and no fallback; otherwise it builds `ChatOpenAI` on the gateway key and normalised URL; the direct routes fail iff their key is empty, with their own message; the label is never rewritten; the model name is the override or the route's default; a base URL is set iff the gateway is used |
| LangGraph.AgentRoutesLikeChat | packages/llm-core/src/langgraph.ts:65-140 | when the flag matches a configured gateway, the agent picks the same route, key, base URL, model and error as the chat client |
| LangGraph.AgentHasNoDirectFallback | packages/llm-core/src/langgraph.ts:72-81 | with the flag on and the gateway unconfigured, the agent fails for `openai`/`anthropic` where the chat client would serve the same request directly |
| LangGraph.AgentUsesGatewayWithoutFlag | packages/llm-core/src/langgraph.ts:72-81 | with the flag off and the gateway configured, the agent serves `litellm` through the gateway while the chat client has none |
| LangGraph.AgentProvider | packages/llm-core/src/langgraph.ts:147 | the provider is the request's, else the configured default, else `openai` |
| LangGraph.AgentProviderMatchesChat | packages/llm-core/src/langgraph.ts:147 | the agent and the chat client resolve the same provider iff the request names one, a default is configured, or the flag is off |
| LangGraph.MessagePartText | packages/llm-core/src/langgraph.ts:47-56 | a string part is kept as is; any other part yields non-empty text only from an object's string `text`, whatever its `type`, and such an object always yields that `text` |
| LangGraph.MessagePartTexts | packages/llm-core/src/langgraph.ts:45-57 | one entry per part, in order |
| LangGraph.NormalizeMessageContent | packages/llm-core/src/langgraph.ts:39-63 | a string is returned untrimmed; an array gives its part texts joined by `\n`, trimmed; anything else gives `""` |
| LangGraph.AgentKeepsChatTextParts | packages/llm-core/src/langgraph.ts:47-56 | every part the chat extractor keeps, the agent keeps with the same text |
| LangGraph.StringReplyAgreesIffTrimmed | packages/llm-core/src/langgraph.ts:40-42 | the two extractors agree on a string reply iff it is already trimmed |
| LangGraph.ArrayReplyAgrees | packages/llm-core/src/langgraph.ts:44-60 | when both extractors read every part alike, they agree on the array |
| LangGraph.AgentKeepsUntypedParts | packages/llm-core/src/langgraph.ts:44-60 | `["A", {text: "B"}]` gives `A\nB` in the agent |
| LangGraph.ChatDropsUntypedParts | packages/llm-core/src/server.ts:52-68 | the same array gives `""` in the chat extractor |
| LangGraph.RunLangGraphAgent | packages/llm-core/src/langgraph.ts:142-192 | a schema or configuration failure makes no graph call; otherwise the graph is invoked once with the prepared model, the prompt messages and the thread id; a failure is passed on; a response carries the resolved provider, the prepared model name, that thread id and the normalised content |
| LangGraph.AgentEchoesThreadId | packages/llm-core/src/langgraph.ts:148 | a supplied thread id is echoed, otherwise the fresh one; the response is schema-valid whenever that id is non-empty |
| LlmService.StrictFlagImpliesParseBoolean | apps/api/src/llm/llm.service.ts:35-37 | the service's exact `"true"`/`"1"` flag implies the client's flag but not conversely (`"TRUE"`) |
| LlmService.GetLlmEnv | apps/api/src/llm/llm.service.ts:72-93 | every key is present, missing ones as `""`, and `DEFAULT_PROVIDER` falls back to `litellm` or `openai` by the strict flag |
| LlmService.ChatClientSeesEveryVariable | apps/api/src/llm/llm.service.ts:72-93 | in the chat path `LITELLM_MASTER_KEY` is never used, unset model names arrive as `""`, and the flag follows `ParseBoolean` |
| LlmService.AgentConfig | apps/api/src/llm/llm.service.ts:38-60 | the default provider is `anthropic`/`litellm` only for those exact names, else `openai`; the flag is strict; the gateway key is `LITELLM_API_KEY ?? LITELLM_MASTER_KEY ?? ""`; every other field is its variable or `""` |
| LlmService.MasterKeyOnlyReachesAgent | apps/api/src/llm/llm.service.ts:53-56 | with only the master key set, the agent gets a gateway key while the chat client gets none |
| LlmService.DefaultProvidersOfBothPaths | apps/api/src/llm/llm.service.ts:38-46 | both paths default alike for an unset or known `DEFAULT_PROVIDER`; for an unknown one the agent uses `openai` and the chat client falls back by its flag |
| LlmService.MapError | apps/api/src/llm/llm.service.ts:22-29 | a ZodError becomes BadRequest with its issues; an Error becomes BadGateway with its message; anything else becomes BadGateway with the fallback text |
| LlmService.LlmService.constructor | apps/api/src/llm/llm.service.ts:11-13 | the client is a fresh valid client built on `ConfigFromEnv(GetLlmEnv(config))`: the chat path reads the environment as `getLlmEnv` fills it in |
| LlmService.LlmService.GetProviders | apps/api/src/llm/llm.service.ts:15-17 | the client's providers, in environment terms: `litellm` iff the flag, gateway key and base URL are all set; each direct provider iff that, or its own key, is set |
| LlmService.LlmService.Chat | apps/api/src/llm/llm.service.ts:19-31 | a response is passed through and an error is mapped by `MapError`; an invalid body is a BadRequest, and a missing client is a BadGateway |
| LlmService.LlmService.Agent | apps/api/src/llm/llm.service.ts:33-70 | runs the agent on `AgentConfig`, passes a response through and maps an error; an invalid body is a BadRequest |
| RagService.IndexRequestIssues | apps/api/src/rag/rag.service.ts:12-23 | no issues iff valid; `documents` is named iff the list is empty or a text is missing or empty; `collectionName` iff it is empty |
| RagService.ParseIndexRequest | apps/api/src/rag/rag.service.ts:12-23 | succeeds iff valid, keeping the collection and every document in order |
| RagService.SearchRequestIssues | apps/api/src/rag/rag.service.ts:25-29 | no issues iff valid; `query` and `k` are named iff their rules fail |
| RagService.ParseSearchRequest | apps/api/src/rag/rag.service.ts:25-29 | succeeds iff the query is non-empty and `k`, when present, is an integer in 1..20; the fields are kept |
| RagService.GetQdrantConfig | apps/api/src/rag/rag.service.ts:105-146 | fails, in order, without `QDRANT_URL`; in gateway mode without the gateway key or base URL; otherwise without the OpenAI key. A result embeds with the gateway key and base URL in gateway mode and the OpenAI key otherwise, never with an empty key; the collection is the request's, else `QDRANT_COLLECTION`, else `documents`; the model defaults by mode |
| RagService.GatewayEmbeddingsHaveBaseUrl | apps/api/src/rag/rag.service.ts:133-145 | the embeddings get a base URL, ending in `/v1`, iff gateway mode is on |
| RagService.ToVectorDocument | apps/api/src/rag/rag.service.ts:43-49 | the page content is the text; the metadata is the user's, overlaid by `sourceId` and `indexedAt` |
| RagService.BuildDocuments | apps/api/src/rag/rag.service.ts:42-50 | one document per input, in order, with the input id or a fresh one as `sourceId` |
| RagService.BuiltDocumentsShareIndexedAt | apps/api/src/rag/rag.service.ts:42-50 | all documents of one call carry the same `indexedAt`, and a supplied id is the `sourceId` |
| RagService.ToHits | apps/api/src/rag/rag.service.ts:88-92 | one hit per result, in the store's order, with its content, metadata and score |
| RagService.IndexDocuments | apps/api/src/rag/rag.service.ts:35-71 | an invalid body is a BadRequest and touches nothing; a configuration error is a BadGateway with its message and touches nothing; otherwise a missing collection is created unless listing or creating it fails; a store failure (listing, creating or opening) is mapped by `MapError`, the documents are added, and the count is the input length |
| RagService.SearchDocuments | apps/api/src/rag/rag.service.ts:73-103 | as indexing for the body, configuration and store opening; then the store is searched with `k` (default 4), which is echoed back in 1..20 with the hits in order; a search failure is mapped |
| Vector.NormalizeEmbeddingBaseUrl | packages/llm-core/src/vector.ts:22-25 | ends in `/v1` and never in `/`; it is the slash-stripped, untrimmed input itself iff that already ends in `/v1`, and that input with `/v1` appended otherwise |
| Vector.NormalizeEmbeddingIdempotent | packages/llm-core/src/vector.ts:22-25 | normalising twice is normalising once |
| Vector.LiteLlmNormalizerTrimsFirst | packages/llm-core/src/vector.ts:22-25 | the chat client's normaliser is this one after `trim` |
| Vector.EmbeddingKeepsWhitespace | packages/llm-core/src/vector.ts:22-25 | `h/ ` gives `h/ /v1`: a trailing space hides the slash |
| Vector.LiteLlmTrimsWhitespace | packages/llm-core/src/server.ts:37-40 | for any trimmed host not ending in `/` or `/v1`, the chat client's normaliser turns `host/ ` into `host/v1` |
| Vector.WithCollection | packages/llm-core/src/vector.ts:33-51 | the name is afterwards present; existing collections are unchanged; a new one gets the requested size (default 1536) and cosine distance |
| Vector.WithCollectionIdempotent | packages/llm-core/src/vector.ts:33-51 | ensuring a collection a second time changes nothing, whatever size it asks for |
| Vector.QdrantCollections.EnsureCollection | packages/llm-core/src/vector.ts:33-51 | a listing failure is passed on; an existing name succeeds with no create; a missing name is created, or the create failure passed on; on failure nothing changes, on success the new state is `WithCollection` of the old |
| Vector.EmbeddingsFor | packages/llm-core/src/vector.ts:59-67 | the key is kept, the model defaults to `text-embedding-3-small`, and a base URL is set iff the configured one is truthy, normalised |
| Vector.CreateQdrantVectorStore | packages/llm-core/src/vector.ts:53-74 | gives `OpenedStore` of the old collections; the collection (1536 by default) is created unless ensuring it failed, so it stays created when only the opening fails |
| Vector.OpenedStore | packages/llm-core/src/vector.ts:53-74 | the store exists iff ensuring the collection and opening both succeed; the first failure is passed on; the store is on the configured URL, key and collection with `EmbeddingsFor`; with no faults it always opens |
| Vector.UpsertDocuments | packages/llm-core/src/vector.ts:76-86 | no documents give `[]` without a call; otherwise a store failure is passed on; an array answer is the ids, and any other answer gives `[]` |
| Vector.UpsertNothingIgnoresStore | packages/llm-core/src/vector.ts:80-82 | with no documents any two stores answer alike |
| Vector.SimilaritySearch | packages/llm-core/src/vector.ts:88-92 | the store's search, with the limit 4 unless one is given |
| Vector.SimilaritySearchWithScore | packages/llm-core/src/vector.ts:94-98 | the store's scored search, with the limit 4 unless one is given |
| Infra.TimeCheck | apps/api/src/infra/infra.service.ts:166-184 | the latency is attached either way; a result is kept; a throw becomes `error`, with the Error's message or `Unknown error` |
| Infra.NoErrors | apps/api/src/infra/infra.service.ts:77-79 | true iff no status in the list is `error` |
| Infra.Overall | apps/api/src/infra/infra.service.ts:77-81 | healthy iff none of the four states is `error` |
| Infra.AllSkippedIsHealthy | apps/api/src/infra/infra.service.ts:77-81 | four skipped dependencies are healthy |
| Infra.RedisClient.constructor | apps/api/src/infra/infra.service.ts:46-50 | a lazily connecting client starts in `wait` |
| Infra.RedisOutcome | apps/api/src/infra/infra.service.ts:114-123 | a failed connect from `wait` is thrown; otherwise a ping failure is thrown, `PONG` is ok, and any other reply is an `error` naming it; the check is never skipped |
| Infra.InfraService.constructor | apps/api/src/infra/infra.service.ts:38-66 | each client exists exactly when its variables are non-empty (Neo4j needs all three); the Qdrant URL and key are the variables or `""` |
| Infra.InfraService.CheckPostgres | apps/api/src/infra/infra.service.ts:100-107 | skipped without a pool; otherwise it throws iff the query fails, and throws the query's own failure; else ok |
| Infra.InfraService.CheckRedis | apps/api/src/infra/infra.service.ts:109-124 | skipped without a client; otherwise `RedisOutcome`, connecting only from `wait`, and the client's new status |
| Infra.InfraService.QdrantRequest | apps/api/src/infra/infra.service.ts:131-137 | it requests `<url>/collections`, with an `api-key` header iff the key is non-empty |
| Infra.InfraService.CheckQdrant | apps/api/src/infra/infra.service.ts:126-146 | skipped without a URL; otherwise it throws iff the fetch fails, and throws that failure; ok iff the status is 2xx, else `error` with `Qdrant status <n>` |
| Infra.InfraService.CheckNeo4j | apps/api/src/infra/infra.service.ts:148-164 | skipped without a driver; otherwise it throws iff the query or the close fails; a close failure is the one thrown, and when the close succeeds the query's failure is thrown |
| Infra.InfraService.SkippedIffUnconfigured | apps/api/src/infra/infra.service.ts:100-164 | Postgres, Qdrant and Neo4j are skipped exactly when their configuration is missing |
| Infra.InfraService.CheckDependencyHealth | apps/api/src/infra/infra.service.ts:68-90 | each dependency's timed result is reported under its own name, unaltered; the status is `Overall` of the four |
| Middleware.Decide | apps/web/middleware.ts:6-17 | redirects iff the signed-in state equals being on a login page: to `/login` when signed out off it, to `/` when signed in on it |
| Middleware.NoRedirectLoop | apps/web/middleware.ts:9-17 | following a redirect with the same session passes through |
| Middleware.Authorized | apps/web/middleware.ts:24-30 | true on login pages, else iff a token is present |
| Middleware.AuthorizedAgreesWithDecide | apps/web/middleware.ts:24-30 | the callback refuses exactly the requests the middleware would send to `/login` |
| Middleware.LoginPrefixAdmitsLonger | apps/web/middleware.ts:7 | `/loginx` and `/login/reset` count as login pages, `/logi` does not |
| Auth.Authorize | apps/web/auth.ts:19-44 | a user iff both fields are non-empty, both admin variables are set and non-empty, and the fields equal them exactly; the user is always `admin-user` / the admin email / `Admin` |
| Auth.OnlyOneAccountSignsIn | apps/web/auth.ts:32-43 | two accepted credentials are the same and give the same user |
| Auth.UnsetAdminRejectsEveryone | apps/web/auth.ts:25-30 | without both admin variables nobody signs in |

## Left out

- SDK and network calls are parameters or function-typed fields, not models: each may answer or throw, and the model follows both outcomes. This covers OpenAI, Anthropic, LangChain `ChatOpenAI`/`ChatAnthropic`, the LangGraph graph execution, the Qdrant store, embeddings, pg, ioredis, neo4j and `fetch`. The Qdrant client's listing and creating of collections and the opening of a store are modelled on the collections map; whether each of them throws is an input (`QdrantFaults`). The single-node graph is one call that returns the last message's content.
- A response's `model` field on the chat path is the model the upstream reports, so it is taken from the abstract completion.
- `Promise.all` in the health check is sequential in the model. The four checks touch disjoint state, so the order does not matter.
- Timestamps, latencies and `randomUUID` are parameters: `createdAt`, `checkedAt`, `latencyMs`, `indexedAt` and `freshId`.
- Zod is modelled as validity predicates over records whose fields already have the right JS type. A field of the wrong JSON type and the stripping of unknown keys are not modelled.
- An issue list holds field names, not `error.flatten()`'s full shape.
- `toLowerCase` is ASCII-only. No non-ASCII character lowercases to a letter of `true`, so `ParseBoolean` is still exact.
- Temperatures are `real`, with no floating-point rounding.
- The ioredis status has three states: `wait`, `ready`, and `ConnectFailed`, which stands for every status after a failed connect. With the default retry strategy the client reports `reconnecting` then, and may reach `ready` by itself. The model does not follow those later changes: none of them is `wait`, so no later check connects again.
- A ZodError thrown inside a health check is reported with detail `""`. Its message text is not modelled.
- `onModuleDestroy` (apps/api/src/infra/infra.service.ts:92-98) is left out: it only closes connections.
- The key order of document metadata and of response objects is not modelled.
- The `Unsupported provider` branch (packages/llm-core/src/server.ts:155-156) cannot be reached: a parsed provider is always one of the three.
- `langgraph.ts` has its own copy of `normalizeLiteLlmBaseUrl` (packages/llm-core/src/langgraph.ts:34-37). It is identical to the one in `server.ts`, so the model uses `Server.NormalizeLiteLlmBaseUrl` for both.
- The middleware `matcher` pattern is Next.js routing configuration and is not modelled.
- `AUTH_SECRET`, the JWT session strategy and the sign-in page option of the web app are configuration and are not modelled.
- `createQdrantClient` only builds an SDK client and is not modelled.
- The graph, rdb and controller files, the Nest modules and the web UI are not part of this model.
