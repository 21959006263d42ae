/** The provider-routing chat client: which upstream clients exist for a
    configuration, which providers it offers, which transport serves a chat
    request, which model name is sent, how the reply becomes text, and which
    label the response carries. */
module Server {
  import opened Wrappers
  import opened Runtime
  import opened Text
  import opened Contracts

  const DEFAULT_OPENAI_MODEL := "gpt-4.1-mini"
  const DEFAULT_ANTHROPIC_MODEL := "claude-3-5-haiku-20241022"
  const DEFAULT_LITELLM_OPENAI_MODEL := "openai-gpt-4.1-mini"
  const DEFAULT_LITELLM_ANTHROPIC_MODEL := "anthropic-claude-3-5-haiku"
  const DEFAULT_ANTHROPIC_MAX_TOKENS := 1024

  const OPENAI_NOT_CONFIGURED := "OPENAI_API_KEY is not configured"
  const ANTHROPIC_NOT_CONFIGURED := "ANTHROPIC_API_KEY is not configured"
  const LITELLM_NOT_CONFIGURED :=
    "LiteLLM is not configured (USE_LITELLM/LITELLM_BASE_URL/LITELLM_API_KEY)"

  /** `parseBoolean`: an unset or empty variable is false; otherwise `"1"` or
      any spelling of `true` in upper and lower case letters. */
  function ParseBoolean(value: Option<string>): (r: bool)
    ensures r <==> value == Some("1") || (value.Some? && CaseVariantOf(value.value, "true"))
  {
    if !Truthy(value) then false
    else
      LowerEqualsIffCaseVariant(value.value, "true");
      value.value == "1" || AsciiLower(value.value) == "true"
  }

  /** `normalizeLiteLlmBaseUrl` (the agent runner carries an identical copy):
      trim, drop every trailing `/`, then append `/v1` unless it is already there. */
  function NormalizeLiteLlmBaseUrl(url: string): (r: string)
    ensures EndsWith(r, "/v1") && r[|r| - 1] != '/'
    ensures IsTrimmed(r)
    ensures var stripped := StripTrailingSlashes(Trim(url));
            (r == stripped <==> EndsWith(stripped, "/v1")) && (r == stripped || r == stripped + "/v1")
  {
    var stripped := StripTrailingSlashes(Trim(url));
    StripKeepsCleanStart(Trim(url));
    SuffixFacts(stripped, "/v1");
    if EndsWith(stripped, "/v1") then stripped else stripped + "/v1"
  }

  /** Normalising an already normalised base URL changes nothing. */
  lemma NormalizeLiteLlmIdempotent(url: string)
    ensures NormalizeLiteLlmBaseUrl(NormalizeLiteLlmBaseUrl(url)) == NormalizeLiteLlmBaseUrl(url)
  {
    var r := NormalizeLiteLlmBaseUrl(url);
    TrimKeepsTrimmed(r);
    assert StripTrailingSlashes(r) == r;
  }

  /** A trailing `/` is replaced by `/v1`. */
  lemma NormalizeReplacesSlash()
    ensures NormalizeLiteLlmBaseUrl("http://host:8000/") == "http://host:8000/v1"
  {
    var u := "http://host:8000/";
    assert IsTrimmed(u);
    TrimKeepsTrimmed(u);
    var a := "http://host:8000";
    assert a + "/" == u;
    StripOne(a);
    assert StripTrailingSlashes(Trim(u)) == a;
    assert !EndsWith(a, "/v1");
    assert a + "/v1" == "http://host:8000/v1";
  }

  /** A URL already ending in `/v1` is kept as it is. */
  lemma NormalizeKeepsV1()
    ensures NormalizeLiteLlmBaseUrl("http://host:8000/v1") == "http://host:8000/v1"
  {
    var u := "http://host:8000/v1";
    assert IsTrimmed(u);
    TrimKeepsTrimmed(u);
    StripKeeps(u);
    assert EndsWith(u, "/v1");
  }

  /** `/v1/` loses its slash and gets no second `/v1`. */
  lemma NormalizeStripsAfterV1()
    ensures NormalizeLiteLlmBaseUrl("http://host:8000/v1/") == "http://host:8000/v1"
  {
    var u := "http://host:8000/v1/";
    assert IsTrimmed(u);
    TrimKeepsTrimmed(u);
    var a := "http://host:8000/v1";
    assert a + "/" == u;
    StripOne(a);
    assert StripTrailingSlashes(Trim(u)) == a;
    assert EndsWith(a, "/v1");
  }

  /** One entry of an OpenAI content array: its `text` when it is an object
      with `type === "text"` and a string `text`, otherwise `""`. */
  function OpenAiPartText(part: JsValue): (t: string)
    ensures t != "" ==> && part.Obj? && "type" in part.fields && part.fields["type"] == Str("text")
                        && "text" in part.fields && part.fields["text"] == Str(t)
    ensures (&& part.Obj? && "type" in part.fields && part.fields["type"] == Str("text")
             && "text" in part.fields && part.fields["text"].Str?) ==> t == part.fields["text"].s
  {
    match part
    case Obj(f) =>
      if "type" in f && f["type"] == Str("text") && "text" in f && f["text"].Str? then f["text"].s
      else ""
    case _ => ""
  }

  function OpenAiPartTexts(items: seq<JsValue>): (ts: seq<string>)
    ensures |ts| == |items|
    ensures forall i :: 0 <= i < |items| ==> ts[i] == OpenAiPartText(items[i])
  {
    seq(|items|, i requires 0 <= i < |items| => OpenAiPartText(items[i]))
  }

  /** `extractTextFromOpenAiContent`: a string is trimmed; an array yields one
      line per entry (empty for entries that are not text parts), joined with
      `"\n"` and trimmed; anything else yields `""`. */
  function ExtractTextFromOpenAiContent(content: JsValue): (r: string)
    ensures IsTrimmed(r)
    ensures content.Str? ==> r == Trim(content.s)
    ensures !content.Str? && !content.Arr? ==> r == ""
  {
    match content
    case Str(s) => Trim(s)
    case Arr(items) => Trim(Join(OpenAiPartTexts(items), "\n"))
    case _ => ""
  }

  /** The joined string starts with the first part and ends with the last. */
  lemma {:induction false} JoinEnds(parts: seq<string>, sep: string)
    requires |parts| >= 1
    ensures parts[0] <= Join(parts, sep)
    ensures EndsWith(Join(parts, sep), parts[|parts| - 1])
    decreases |parts|
  {
    if |parts| > 1 {
      JoinEnds(parts[1..], sep);
      var rest := Join(parts[1..], sep);
      assert Join(parts, sep) == parts[0] + sep + rest;
      assert parts[1..][|parts[1..]| - 1] == parts[|parts| - 1];
      var whole := parts[0] + sep + rest;
      assert whole[|whole| - |parts[|parts| - 1]|..] == rest[|rest| - |parts[|parts| - 1]|..];
    }
  }

  /** Every entry of the content array, text part or not, occupies exactly one
      line of the extracted text: when no text holds a line break and the first
      and last entries are non-empty texts without surrounding whitespace,
      splitting the output at `"\n"` gives back the per-entry texts, with `""`
      for each dropped entry. */
  lemma ExtractedLinesMatchEntries(items: seq<JsValue>)
    requires |items| >= 1
    requires forall i :: 0 <= i < |items| ==> '\n' !in OpenAiPartText(items[i])
    requires OpenAiPartText(items[0]) != "" && !IsWhitespace(OpenAiPartText(items[0])[0])
    requires var last := OpenAiPartText(items[|items| - 1]);
             last != "" && !IsWhitespace(last[|last| - 1])
    ensures Split(ExtractTextFromOpenAiContent(Arr(items)), '\n') == OpenAiPartTexts(items)
  {
    TrimmedJoinSplitsBack(OpenAiPartTexts(items));
  }

  /** Lines joined with `"\n"` and trimmed split back into the same lines when
      no line holds a line break and the first and last lines are non-empty
      with no whitespace at the outer edges. */
  lemma TrimmedJoinSplitsBack(parts: seq<string>)
    requires |parts| >= 1
    requires forall i :: 0 <= i < |parts| ==> '\n' !in parts[i]
    requires parts[0] != "" && !IsWhitespace(parts[0][0])
    requires var last := parts[|parts| - 1];
             last != "" && !IsWhitespace(last[|last| - 1])
    ensures Split(Trim(Join(parts, "\n")), '\n') == parts
  {
    var joined := Join(parts, "\n");
    JoinEnds(parts, "\n");
    assert joined[0] == parts[0][0];
    assert joined[|joined| - 1] == parts[|parts| - 1][|parts[|parts| - 1]| - 1];
    TrimKeepsTrimmed(joined);
    SplitJoin(parts, '\n');
  }

  /** Two text parts give `"A\nB"`. */
  lemma ExtractTwoTextParts()
    ensures ExtractTextFromOpenAiContent(Arr([
      Obj(map["type" := Str("text"), "text" := Str("A")]),
      Obj(map["type" := Str("text"), "text" := Str("B")])])) == "A\nB"
  {
    var items := [
      Obj(map["type" := Str("text"), "text" := Str("A")]),
      Obj(map["type" := Str("text"), "text" := Str("B")])];
    assert OpenAiPartText(items[0]) == "A";
    assert OpenAiPartText(items[1]) == "B";
    assert OpenAiPartTexts(items) == ["A", "B"];
    assert Join(["A", "B"], "\n") == "A" + "\n" + Join(["B"], "\n");
    assert Join(["A", "B"], "\n") == "A\nB";
    assert IsTrimmed("A\nB");
    TrimKeepsTrimmed("A\nB");
  }

  /** A dropped entry between two texts still leaves its empty line:
      `[a, image, b]` gives `a + "\n\n" + b`. */
  lemma ExtractKeepsEmptyLine(a: string, b: string, kind: string)
    requires a != [] && !IsWhitespace(a[0]) && b != [] && !IsWhitespace(b[|b| - 1])
    requires kind != "text"
    ensures ExtractTextFromOpenAiContent(Arr([
      Obj(map["type" := Str("text"), "text" := Str(a)]),
      Obj(map["type" := Str(kind)]),
      Obj(map["type" := Str("text"), "text" := Str(b)])])) == a + "\n\n" + b
  {
    var items := [
      Obj(map["type" := Str("text"), "text" := Str(a)]),
      Obj(map["type" := Str(kind)]),
      Obj(map["type" := Str("text"), "text" := Str(b)])];
    var texts := OpenAiPartTexts(items);
    assert texts == [a, "", b] by {
      assert texts[0] == a;
      assert texts[1] == "" by {
        assert items[1].fields["type"] != Str("text");
      }
      assert texts[2] == b;
    }
    var joined := a + "\n" + "" + "\n" + b;
    assert Join(texts, "\n") == joined by {
      JoinThree(a, "", b, "\n");
    }
    assert joined == a + "\n\n" + b;
    assert joined[0] == a[0] && joined[|joined| - 1] == b[|b| - 1];
    TrimKeepsTrimmed(joined);
  }

  /** A block of an Anthropic reply. */
  datatype ContentBlock = TextBlock(text: string) | OtherBlock(kind: string)

  function AnthropicBlockTexts(blocks: seq<ContentBlock>): (ts: seq<string>)
    ensures |ts| == |blocks|
    ensures forall i :: 0 <= i < |blocks| ==>
              ts[i] == if blocks[i].TextBlock? then blocks[i].text else ""
  {
    seq(|blocks|, i requires 0 <= i < |blocks| =>
      if blocks[i].TextBlock? then blocks[i].text else "")
  }

  /** The text of an Anthropic reply: text blocks kept, others as empty lines,
      joined with `"\n"` and trimmed. */
  function AnthropicOutput(blocks: seq<ContentBlock>): (r: string)
    ensures IsTrimmed(r)
    ensures (forall i :: 0 <= i < |blocks| ==> !blocks[i].TextBlock?) ==> r == ""
  {
    var texts := AnthropicBlockTexts(blocks);
    if forall i :: 0 <= i < |blocks| ==> !blocks[i].TextBlock? then
      AllEmptyJoin(texts, "\n");
      Trim(Join(texts, "\n"))
    else Trim(Join(texts, "\n"))
  }

  /** Joining only empty parts leaves nothing but separators. */
  lemma {:induction false} AllEmptyJoin(parts: seq<string>, sep: string)
    requires forall i :: 0 <= i < |parts| ==> parts[i] == ""
    requires sep == "\n"
    ensures Trim(Join(parts, sep)) == ""
    decreases |parts|
  {
    var j := Join(parts, sep);
    forall i | 0 <= i < |j| ensures j[i] == '\n' {
      AllNewlines(parts, i);
    }
    var t := TrimStart(j);
    if t != [] {
      assert t[0] == j[|j| - |t|];
      assert IsWhitespace(t[0]);
    }
  }

  lemma {:induction false} AllNewlines(parts: seq<string>, i: nat)
    requires forall k :: 0 <= k < |parts| ==> parts[k] == ""
    requires i < |Join(parts, "\n")|
    ensures Join(parts, "\n")[i] == '\n'
    decreases |parts|
  {
    if |parts| > 1 {
      assert Join(parts, "\n") == "\n" + Join(parts[1..], "\n");
      if i > 0 {
        AllNewlines(parts[1..], i - 1);
      }
    }
  }

  /** A text block then an image block gives the text alone. */
  lemma AnthropicDropsImage(t: string, kind: string)
    requires t != [] && IsTrimmed(t)
    ensures AnthropicOutput([TextBlock(t), OtherBlock(kind)]) == t
  {
    var blocks := [TextBlock(t), OtherBlock(kind)];
    assert AnthropicBlockTexts(blocks) == [t, ""];
    assert Join([t, ""], "\n") == t + ['\n'] by {
      JoinTwo(t, "", "\n");
    }
    TrimDropsTrailingWhitespace(t, '\n');
  }

  /** Every block of an Anthropic reply occupies exactly one line of the
      output: when no block text holds a line break and the first and last
      blocks are non-empty texts without surrounding whitespace, splitting the
      output at `"\n"` gives back the per-block texts, with `""` for each
      non-text block. */
  lemma AnthropicLinesMatchBlocks(blocks: seq<ContentBlock>)
    requires |blocks| >= 1
    requires forall i :: 0 <= i < |blocks| ==> blocks[i].TextBlock? ==> '\n' !in blocks[i].text
    requires blocks[0].TextBlock? && blocks[0].text != "" && !IsWhitespace(blocks[0].text[0])
    requires var last := blocks[|blocks| - 1];
             last.TextBlock? && last.text != "" && !IsWhitespace(last.text[|last.text| - 1])
    ensures Split(AnthropicOutput(blocks), '\n') == AnthropicBlockTexts(blocks)
  {
    TrimmedJoinSplitsBack(AnthropicBlockTexts(blocks));
  }

  /** `LlmCoreConfig`: every field optional. */
  datatype LlmCoreConfig = LlmCoreConfig(
    defaultProvider: Option<Provider>,
    openaiApiKey: Option<string>,
    anthropicApiKey: Option<string>,
    openaiModel: Option<string>,
    anthropicModel: Option<string>,
    useLiteLlm: Option<bool>,
    liteLlmBaseUrl: Option<string>,
    liteLlmApiKey: Option<string>,
    liteLlmOpenaiModel: Option<string>,
    liteLlmAnthropicModel: Option<string>)

  /** An SDK client as constructed: its key and, for the gateway, its base URL. */
  datatype ClientHandle = ClientHandle(apiKey: string, baseUrl: Option<string>)

  datatype Role = System | User

  datatype ChatMessage = ChatMessage(role: Role, content: string)

  /** The messages of an OpenAI-shaped call: a system message only when the
      system prompt is a non-empty string, then the user message. */
  function PromptMessages(systemPrompt: Option<string>, message: string): (ms: seq<ChatMessage>)
    ensures |ms| == if Truthy(systemPrompt) then 2 else 1
    ensures ms[|ms| - 1] == ChatMessage(User, message)
    ensures Truthy(systemPrompt) ==> ms[0] == ChatMessage(System, systemPrompt.value)
  {
    (if Truthy(systemPrompt) then [ChatMessage(System, systemPrompt.value)] else [])
    + [ChatMessage(User, message)]
  }

  /** The arguments of `chat.completions.create` on the direct or gateway client. */
  datatype OpenAiRequest = OpenAiRequest(
    client: ClientHandle,
    model: string,
    temperature: Option<real>,
    maxTokens: Option<int>,
    messages: seq<ChatMessage>)

  /** The arguments of `messages.create` on the Anthropic client. */
  datatype AnthropicRequest = AnthropicRequest(
    client: ClientHandle,
    model: string,
    maxTokens: int,
    temperature: Option<real>,
    system: Option<string>,
    messages: seq<ChatMessage>)

  /** A completion: the model it reports and `choices[0]?.message?.content`. */
  datatype OpenAiCompletion = OpenAiCompletion(model: string, content: JsValue)

  datatype AnthropicMessage = AnthropicMessage(model: string, content: seq<ContentBlock>)

  /** The SDKs, as functions from the request sent to the reply or rejection. */
  datatype Upstream = Upstream(
    openAi: OpenAiRequest -> Sdk<OpenAiCompletion>,
    anthropic: AnthropicRequest -> Sdk<AnthropicMessage>)

  /** The one SDK call a chat request makes. */
  datatype OutboundCall = OpenAiCall(openAiRequest: OpenAiRequest) | AnthropicCall(anthropicRequest: AnthropicRequest)

  function CallClient(call: OutboundCall): ClientHandle {
    match call
    case OpenAiCall(req) => req.client
    case AnthropicCall(req) => req.client
  }

  function CallModel(call: OutboundCall): string {
    match call
    case OpenAiCall(req) => req.model
    case AnthropicCall(req) => req.model
  }

  /** The rejection of the call, if the SDK rejected it. */
  function CallFailure(upstream: Upstream, call: OutboundCall): Option<Thrown> {
    match call
    case OpenAiCall(req) => (match upstream.openAi(req) case Raised(e) => Some(e) case Returned(_) => None)
    case AnthropicCall(req) => (match upstream.anthropic(req) case Raised(e) => Some(e) case Returned(_) => None)
  }

  /** The response a call yields when the SDK answers: the model the reply
      reports and its text, extracted by the rules of that SDK's reply shape,
      under the given label and time; none when the SDK rejects the call. */
  function ResponseOf(upstream: Upstream, call: OutboundCall, provider: Provider, createdAt: string)
    : (resp: Option<ChatResponse>)
    ensures resp.Some? <==> CallFailure(upstream, call).None?
    ensures resp.Some? ==> resp.value.provider == provider && resp.value.createdAt == createdAt
                           && IsTrimmed(resp.value.output)
    ensures resp.Some? && call.OpenAiCall? ==>
              var reply := upstream.openAi(call.openAiRequest).value;
              resp.value.model == reply.model && resp.value.output == ExtractTextFromOpenAiContent(reply.content)
    ensures resp.Some? && call.AnthropicCall? ==>
              var reply := upstream.anthropic(call.anthropicRequest).value;
              resp.value.model == reply.model && resp.value.output == AnthropicOutput(reply.content)
  {
    match call
    case OpenAiCall(req) =>
      (match upstream.openAi(req)
       case Raised(_) => None
       case Returned(c) => Some(ChatResponse(provider, c.model, ExtractTextFromOpenAiContent(c.content), createdAt)))
    case AnthropicCall(req) =>
      (match upstream.anthropic(req)
       case Raised(_) => None
       case Returned(m) => Some(ChatResponse(provider, m.model, AnthropicOutput(m.content), createdAt)))
  }

  /** What a chat request did: the SDK call it made, if any, and what it returned or threw. */
  datatype ChatOutcome = ChatOutcome(sent: Option<OutboundCall>, result: Result<ChatResponse, Thrown>)

  /** The transport that serves a request. */
  datatype Route = Gateway | DirectOpenAI | DirectAnthropic

  /** The rank of a provider in the order `getAvailableProviders` lists them. */
  function Rank(p: Provider): nat {
    match p
    case LiteLlm => 0
    case OpenAI => 1
    case Anthropic => 2
  }

  /** Strictly increasing rank: a duplicate-free subsequence of `[litellm, openai, anthropic]`. */
  predicate InProviderOrder(ps: seq<Provider>) {
    forall i, j :: 0 <= i < j < |ps| ==> Rank(ps[i]) < Rank(ps[j])
  }

  /** `Set.prototype.add` on an insertion-ordered set. */
  function SetAdd(s: seq<Provider>, p: Provider): (r: seq<Provider>)
    ensures forall q :: q in r <==> q in s || q == p
    ensures p in s ==> r == s
  {
    if p in s then s else s + [p]
  }

  class LlmClient {
    /** The configuration it was built from. */
    ghost const config: LlmCoreConfig

    const openai: Option<ClientHandle>
    const anthropic: Option<ClientHandle>
    const liteLlm: Option<ClientHandle>
    const useLiteLlm: bool
    const defaultProvider: Provider
    const openaiModel: string
    const anthropicModel: string
    const liteLlmOpenaiModel: string
    const liteLlmAnthropicModel: string

    /** How the fields follow from the configuration: defaults apply only to
        absent fields; a direct client exists only for a non-empty key, and the
        gateway client only in gateway mode with both its key and its base URL
        non-empty, its base URL normalised. */
    ghost predicate Valid() {
      && useLiteLlm == config.useLiteLlm.GetOr(false)
      && defaultProvider == config.defaultProvider.GetOr(if useLiteLlm then LiteLlm else OpenAI)
      && openaiModel == config.openaiModel.GetOr(DEFAULT_OPENAI_MODEL)
      && anthropicModel == config.anthropicModel.GetOr(DEFAULT_ANTHROPIC_MODEL)
      && liteLlmOpenaiModel == config.liteLlmOpenaiModel.GetOr(DEFAULT_LITELLM_OPENAI_MODEL)
      && liteLlmAnthropicModel == config.liteLlmAnthropicModel.GetOr(DEFAULT_LITELLM_ANTHROPIC_MODEL)
      && (openai.Some? <==> Truthy(config.openaiApiKey))
      && (openai.Some? ==> openai.value == ClientHandle(config.openaiApiKey.value, None))
      && (anthropic.Some? <==> Truthy(config.anthropicApiKey))
      && (anthropic.Some? ==> anthropic.value == ClientHandle(config.anthropicApiKey.value, None))
      && (liteLlm.Some? <==> useLiteLlm && Truthy(config.liteLlmApiKey) && Truthy(config.liteLlmBaseUrl))
      && (liteLlm.Some? ==> liteLlm.value == ClientHandle(
            config.liteLlmApiKey.value, Some(NormalizeLiteLlmBaseUrl(config.liteLlmBaseUrl.value))))
    }

    constructor (config: LlmCoreConfig)
      ensures this.config == config && Valid()
    {
      this.config := config;
      var gateway := config.useLiteLlm.GetOr(false);
      useLiteLlm := gateway;
      defaultProvider := config.defaultProvider.GetOr(if gateway then LiteLlm else OpenAI);
      openaiModel := config.openaiModel.GetOr(DEFAULT_OPENAI_MODEL);
      anthropicModel := config.anthropicModel.GetOr(DEFAULT_ANTHROPIC_MODEL);
      liteLlmOpenaiModel := config.liteLlmOpenaiModel.GetOr(DEFAULT_LITELLM_OPENAI_MODEL);
      liteLlmAnthropicModel := config.liteLlmAnthropicModel.GetOr(DEFAULT_LITELLM_ANTHROPIC_MODEL);
      openai := if Truthy(config.openaiApiKey) then Some(ClientHandle(config.openaiApiKey.value, None)) else None;
      anthropic :=
        if Truthy(config.anthropicApiKey) then Some(ClientHandle(config.anthropicApiKey.value, None)) else None;
      liteLlm :=
        if gateway && Truthy(config.liteLlmApiKey) && Truthy(config.liteLlmBaseUrl) then
          Some(ClientHandle(config.liteLlmApiKey.value, Some(NormalizeLiteLlmBaseUrl(config.liteLlmBaseUrl.value))))
        else None;
    }

    /** `getAvailableProviders`: `litellm` exactly when the gateway client exists,
        and then all three; otherwise each provider whose direct client exists;
        no duplicates, in the order litellm, openai, anthropic. */
    method GetAvailableProviders() returns (providers: seq<Provider>)
      ensures LiteLlm in providers <==> liteLlm.Some?
      ensures OpenAI in providers <==> liteLlm.Some? || openai.Some?
      ensures Anthropic in providers <==> liteLlm.Some? || anthropic.Some?
      ensures InProviderOrder(providers)
    {
      providers := [];
      if liteLlm.Some? {
        providers := SetAdd(providers, LiteLlm);
        providers := SetAdd(providers, OpenAI);
        providers := SetAdd(providers, Anthropic);
        assert providers == [LiteLlm, OpenAI, Anthropic];
      }
      if openai.Some? {
        providers := SetAdd(providers, OpenAI);
      }
      if anthropic.Some? {
        providers := SetAdd(providers, Anthropic);
      }
    }

    /** Which transport serves provider `p`: the gateway for `litellm`, and for
        the other two when gateway mode is on and the gateway client exists;
        otherwise that provider's direct client. */
    function RouteFor(p: Provider): Route {
      if p == LiteLlm || (useLiteLlm && liteLlm.Some?) then Gateway
      else if p == OpenAI then DirectOpenAI
      else DirectAnthropic
    }

    function ClientFor(route: Route): Option<ClientHandle> {
      match route
      case Gateway => liteLlm
      case DirectOpenAI => openai
      case DirectAnthropic => anthropic
    }

    function NotConfiguredMessage(route: Route): string {
      match route
      case Gateway => LITELLM_NOT_CONFIGURED
      case DirectOpenAI => OPENAI_NOT_CONFIGURED
      case DirectAnthropic => ANTHROPIC_NOT_CONFIGURED
    }

    /** The model name sent for provider `p`: the request's own, else the
        default of the transport, where the gateway uses its Anthropic-flavoured
        default only for provider `anthropic`. */
    function ModelFor(p: Provider, input: ChatRequest): string {
      input.model.GetOr(
        match RouteFor(p)
        case Gateway => if p == Anthropic then liteLlmAnthropicModel else liteLlmOpenaiModel
        case DirectOpenAI => openaiModel
        case DirectAnthropic => anthropicModel)
    }

    /** `chatWithOpenAI`: without the direct OpenAI client it throws before any
        call; otherwise it sends the request's model (else the configured one),
        its temperature and token limit, and the prompt messages, and labels the
        reply `openai`. */
    function ChatWithOpenAI(input: ChatRequest, upstream: Upstream, createdAt: string): (r: ChatOutcome)
      ensures openai.None? ==> r == ChatOutcome(None, Err(Error(OPENAI_NOT_CONFIGURED)))
      ensures openai.Some? ==> r.sent == Some(OpenAiCall(OpenAiRequest(openai.value,
                input.model.GetOr(openaiModel), input.temperature, input.maxTokens,
                PromptMessages(input.systemPrompt, input.message))))
      ensures r.result.Ok? ==> r.result.value.provider == OpenAI && r.result.value.createdAt == createdAt
                               && IsTrimmed(r.result.value.output)
      ensures r.sent.Some? ==>
                && (r.result.Err? <==> CallFailure(upstream, r.sent.value).Some?)
                && (r.result.Err? ==> r.result.error == CallFailure(upstream, r.sent.value).value)
                && (r.result.Ok? ==> r.result.value == ResponseOf(upstream, r.sent.value, OpenAI, createdAt).value)
    {
      if openai.None? then ChatOutcome(None, Err(Error(OPENAI_NOT_CONFIGURED)))
      else
        var request := OpenAiRequest(openai.value, input.model.GetOr(openaiModel),
          input.temperature, input.maxTokens, PromptMessages(input.systemPrompt, input.message));
        ChatOutcome(Some(OpenAiCall(request)),
          match upstream.openAi(request)
          case Raised(e) => Err(e)
          case Returned(c) =>
            Ok(ChatResponse(OpenAI, c.model, ExtractTextFromOpenAiContent(c.content), createdAt)))
    }

    /** `chatWithAnthropic`: without the Anthropic client it throws before any
        call; otherwise `max_tokens` defaults to 1024, the system prompt is
        passed as given, the only message is the user's, and the reply is
        labelled `anthropic`. */
    function ChatWithAnthropic(input: ChatRequest, upstream: Upstream, createdAt: string): (r: ChatOutcome)
      ensures anthropic.None? ==> r == ChatOutcome(None, Err(Error(ANTHROPIC_NOT_CONFIGURED)))
      ensures anthropic.Some? ==> r.sent == Some(AnthropicCall(AnthropicRequest(anthropic.value,
                input.model.GetOr(anthropicModel), input.maxTokens.GetOr(DEFAULT_ANTHROPIC_MAX_TOKENS),
                input.temperature, input.systemPrompt, [ChatMessage(User, input.message)])))
      ensures r.result.Ok? ==> r.result.value.provider == Anthropic && r.result.value.createdAt == createdAt
                               && IsTrimmed(r.result.value.output)
      ensures r.sent.Some? ==>
                && (r.result.Err? <==> CallFailure(upstream, r.sent.value).Some?)
                && (r.result.Err? ==> r.result.error == CallFailure(upstream, r.sent.value).value)
                && (r.result.Ok? ==> r.result.value == ResponseOf(upstream, r.sent.value, Anthropic, createdAt).value)
    {
      if anthropic.None? then ChatOutcome(None, Err(Error(ANTHROPIC_NOT_CONFIGURED)))
      else
        var request := AnthropicRequest(anthropic.value, input.model.GetOr(anthropicModel),
          input.maxTokens.GetOr(DEFAULT_ANTHROPIC_MAX_TOKENS), input.temperature, input.systemPrompt,
          [ChatMessage(User, input.message)]);
        ChatOutcome(Some(AnthropicCall(request)),
          match upstream.anthropic(request)
          case Raised(e) => Err(e)
          case Returned(m) => Ok(ChatResponse(Anthropic, m.model, AnthropicOutput(m.content), createdAt)))
    }

    /** `chatWithLiteLlm`: without the gateway client it throws before any
        call (there is no fallback to a direct client); otherwise it sends the
        request's model, else `defaultModel`, through the gateway and labels
        the reply with `responseProvider`. */
    function ChatWithLiteLlm(input: ChatRequest, defaultModel: string, responseProvider: Provider,
                             upstream: Upstream, createdAt: string): (r: ChatOutcome)
      ensures liteLlm.None? ==> r == ChatOutcome(None, Err(Error(LITELLM_NOT_CONFIGURED)))
      ensures liteLlm.Some? ==> r.sent == Some(OpenAiCall(OpenAiRequest(liteLlm.value,
                input.model.GetOr(defaultModel), input.temperature, input.maxTokens,
                PromptMessages(input.systemPrompt, input.message))))
      ensures r.result.Ok? ==> r.result.value.provider == responseProvider
                               && r.result.value.createdAt == createdAt
                               && IsTrimmed(r.result.value.output)
      ensures r.sent.Some? ==>
                && (r.result.Err? <==> CallFailure(upstream, r.sent.value).Some?)
                && (r.result.Err? ==> r.result.error == CallFailure(upstream, r.sent.value).value)
                && (r.result.Ok? ==> r.result.value == ResponseOf(upstream, r.sent.value, responseProvider, createdAt).value)
    {
      if liteLlm.None? then ChatOutcome(None, Err(Error(LITELLM_NOT_CONFIGURED)))
      else
        var request := OpenAiRequest(liteLlm.value, input.model.GetOr(defaultModel),
          input.temperature, input.maxTokens, PromptMessages(input.systemPrompt, input.message));
        ChatOutcome(Some(OpenAiCall(request)),
          match upstream.openAi(request)
          case Raised(e) => Err(e)
          case Returned(c) =>
            Ok(ChatResponse(responseProvider, c.model, ExtractTextFromOpenAiContent(c.content), createdAt)))
    }

    /** `chat`: validation first (a ZodError and no call); then the provider is
        the request's, else the default; the transport is `RouteFor`; a missing
        client for that transport throws its "not configured" error with no
        call; otherwise exactly one call goes to that client with `ModelFor`'s
        model, an SDK rejection is passed on as it is, and a response carries
        the resolved provider as its label, even when the gateway served it. */
    function Chat(raw: RawChatRequest, upstream: Upstream, createdAt: string): (r: ChatOutcome)
      ensures ParseChatRequest(raw).Err? ==> r == ChatOutcome(None, Err(ParseChatRequest(raw).error))
      ensures ParseChatRequest(raw).Ok? ==>
        var input := ParseChatRequest(raw).value;
        var p := input.provider.GetOr(defaultProvider);
        var route := RouteFor(p);
        && (r.sent.None? <==> ClientFor(route).None?)
        && (r.sent.None? ==> r.result == Err(Error(NotConfiguredMessage(route))))
        && (r.sent.Some? ==>
              && CallClient(r.sent.value) == ClientFor(route).value
              && (r.sent.value.AnthropicCall? <==> route == DirectAnthropic)
              && CallModel(r.sent.value) == ModelFor(p, input)
              && (r.result.Err? <==> CallFailure(upstream, r.sent.value).Some?)
              && (r.result.Err? ==> r.result.error == CallFailure(upstream, r.sent.value).value)
              && (r.result.Ok? ==> r.result.value == ResponseOf(upstream, r.sent.value, p, createdAt).value))
        && (r.result.Ok? ==> r.result.value.provider == p && r.result.value.createdAt == createdAt
                             && IsTrimmed(r.result.value.output))
    {
      match ParseChatRequest(raw)
      case Err(e) => ChatOutcome(None, Err(e))
      case Ok(input) =>
        var provider := input.provider.GetOr(defaultProvider);
        match provider
        case OpenAI =>
          if useLiteLlm && liteLlm.Some? then ChatWithLiteLlm(input, liteLlmOpenaiModel, OpenAI, upstream, createdAt)
          else ChatWithOpenAI(input, upstream, createdAt)
        case Anthropic =>
          if useLiteLlm && liteLlm.Some? then ChatWithLiteLlm(input, liteLlmAnthropicModel, Anthropic, upstream, createdAt)
          else ChatWithAnthropic(input, upstream, createdAt)
        case LiteLlm =>
          ChatWithLiteLlm(input, liteLlmOpenaiModel, LiteLlm, upstream, createdAt)
    }
  }

  /** A `litellm` request is labelled `litellm` whatever model it names, and
      never reaches a direct client: without the gateway it fails with the
      gateway's error. */
  lemma LiteLlmAlwaysViaGateway(c: LlmClient, raw: RawChatRequest, upstream: Upstream, createdAt: string)
    requires ParseChatRequest(raw).Ok?
    requires ParseChatRequest(raw).value.provider.GetOr(c.defaultProvider) == LiteLlm
    ensures var r := c.Chat(raw, upstream, createdAt);
            && (r.result.Ok? ==> r.result.value.provider == LiteLlm)
            && (c.liteLlm.None? ==> r == ChatOutcome(None, Err(Error(LITELLM_NOT_CONFIGURED))))
            && (r.sent.Some? ==> r.sent.value.OpenAiCall? && c.liteLlm.Some?
                                 && r.sent.value.openAiRequest.client == c.liteLlm.value)
  {
  }

  /** When no SDK call is made the outcome does not depend on the SDKs at all:
      every guard is decided before the network. */
  lemma NoCallNoDependence(c: LlmClient, raw: RawChatRequest, u1: Upstream, u2: Upstream, createdAt: string)
    ensures c.Chat(raw, u1, createdAt).sent.None? ==> c.Chat(raw, u1, createdAt) == c.Chat(raw, u2, createdAt)
  {
  }

  /** `createLlmClientFromEnv`: a `DEFAULT_PROVIDER` outside the enum counts as
      absent; `USE_LITELLM` goes through `parseBoolean`; the gateway key is
      `LITELLM_API_KEY ?? LITELLM_MASTER_KEY`; every other field is the variable
      as set, `undefined` when unset. */
  function ConfigFromEnv(env: Env): (c: LlmCoreConfig)
    ensures c.defaultProvider.Some? <==> "DEFAULT_PROVIDER" in env && ParseProvider(env["DEFAULT_PROVIDER"]).Some?
    ensures c.defaultProvider.Some? ==> ProviderName(c.defaultProvider.value) == env["DEFAULT_PROVIDER"]
    ensures c.useLiteLlm == Some(ParseBoolean(Get(env, "USE_LITELLM")))
    ensures "LITELLM_API_KEY" in env ==> c.liteLlmApiKey == Some(env["LITELLM_API_KEY"])
    ensures "LITELLM_API_KEY" !in env ==> c.liteLlmApiKey == Get(env, "LITELLM_MASTER_KEY")
    ensures c.openaiApiKey == Get(env, "OPENAI_API_KEY") && c.anthropicApiKey == Get(env, "ANTHROPIC_API_KEY")
    ensures c.openaiModel == Get(env, "OPENAI_MODEL") && c.anthropicModel == Get(env, "ANTHROPIC_MODEL")
    ensures c.liteLlmBaseUrl == Get(env, "LITELLM_BASE_URL")
    ensures c.liteLlmOpenaiModel == Get(env, "LITELLM_OPENAI_MODEL")
    ensures c.liteLlmAnthropicModel == Get(env, "LITELLM_ANTHROPIC_MODEL")
  {
    var name := Get(env, "DEFAULT_PROVIDER");
    LlmCoreConfig(
      if name.Some? then ParseProvider(name.value) else None,
      Get(env, "OPENAI_API_KEY"),
      Get(env, "ANTHROPIC_API_KEY"),
      Get(env, "OPENAI_MODEL"),
      Get(env, "ANTHROPIC_MODEL"),
      Some(ParseBoolean(Get(env, "USE_LITELLM"))),
      Get(env, "LITELLM_BASE_URL"),
      Get(env, "LITELLM_API_KEY").OrElse(Get(env, "LITELLM_MASTER_KEY")),
      Get(env, "LITELLM_OPENAI_MODEL"),
      Get(env, "LITELLM_ANTHROPIC_MODEL"))
  }

  /** `createLlmClientFromEnv`: a fresh client built from `ConfigFromEnv`. */
  method CreateLlmClientFromEnv(env: Env) returns (client: LlmClient)
    ensures fresh(client) && client.config == ConfigFromEnv(env) && client.Valid()
    ensures client.useLiteLlm == ParseBoolean(Get(env, "USE_LITELLM"))
  {
    client := new LlmClient(ConfigFromEnv(env));
  }
}
