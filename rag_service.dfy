/** The API's retrieval service: the index and search request schemas, the
    store configuration it derives from the environment, how it turns indexed
    documents into store documents, the shape of its answers, and how its
    errors become HTTP errors. */
module RagService {
  import opened Wrappers
  import opened Runtime
  import opened Text
  import opened Contracts
  import opened Vector
  import opened LlmService

  const DEFAULT_COLLECTION := "documents"
  const DEFAULT_K := 4
  const MAX_K := 20
  const GATEWAY_EMBEDDING_MODEL := "openai-text-embedding-3-small"
  const DIRECT_EMBEDDING_MODEL := "text-embedding-3-small"
  const INDEX_FALLBACK_MESSAGE := "RAG index failed"
  const SEARCH_FALLBACK_MESSAGE := "RAG search failed"

  const QDRANT_URL_MISSING := "QDRANT_URL is not configured"
  const GATEWAY_EMBEDDING_MISSING := "LITELLM_API_KEY and LITELLM_BASE_URL are required for embedding via LiteLLM"
  const OPENAI_EMBEDDING_MISSING := "OPENAI_API_KEY is required when USE_LITELLM is disabled"

  /** One document of an index request body as it arrives. */
  datatype RawIndexDocument = RawIndexDocument(
    id: Option<string>, text: Option<string>, metadata: Option<map<string, JsValue>>)

  datatype RawIndexRequest = RawIndexRequest(
    collectionName: Option<string>, documents: Option<seq<RawIndexDocument>>)

  datatype IndexDocument = IndexDocument(id: Option<string>, text: string, metadata: Option<map<string, JsValue>>)

  datatype IndexRequest = IndexRequest(collectionName: Option<string>, documents: seq<IndexDocument>)

  predicate ValidIndexDocument(d: RawIndexDocument) {
    d.text.Some? && |d.text.value| >= 1
  }

  /** `RagIndexRequestSchema`'s `documents`: present, at least one, each with a non-empty text. */
  predicate DocumentsOk(docs: Option<seq<RawIndexDocument>>) {
    docs.Some? && |docs.value| >= 1 && forall i :: 0 <= i < |docs.value| ==> ValidIndexDocument(docs.value[i])
  }

  predicate ValidIndexRequest(raw: RawIndexRequest) {
    NonEmptyIfPresent(raw.collectionName) && DocumentsOk(raw.documents)
  }

  /** The top-level fields a failing index request is reported under. */
  function IndexRequestIssues(raw: RawIndexRequest): (issues: seq<string>)
    ensures issues == [] <==> ValidIndexRequest(raw)
    ensures "documents" in issues <==> !DocumentsOk(raw.documents)
    ensures "collectionName" in issues <==> !NonEmptyIfPresent(raw.collectionName)
  {
    Issue(NonEmptyIfPresent(raw.collectionName), "collectionName") + Issue(DocumentsOk(raw.documents), "documents")
  }

  /** `RagIndexRequestSchema.parse`: every document kept, in order, with its fields. */
  function ParseIndexRequest(raw: RawIndexRequest): (r: Result<IndexRequest, Thrown>)
    ensures r.Ok? <==> ValidIndexRequest(raw)
    ensures r.Err? ==> r.error == ZodError(IndexRequestIssues(raw))
    ensures r.Ok? ==> && r.value.collectionName == raw.collectionName
                      && |r.value.documents| == |raw.documents.value| >= 1
                      && forall i :: 0 <= i < |r.value.documents| ==>
                           r.value.documents[i] == IndexDocument(raw.documents.value[i].id,
                             raw.documents.value[i].text.value, raw.documents.value[i].metadata)
  {
    if !ValidIndexRequest(raw) then Err(ZodError(IndexRequestIssues(raw)))
    else
      var docs := raw.documents.value;
      Ok(IndexRequest(raw.collectionName,
        seq(|docs|, i requires 0 <= i < |docs| && ValidIndexDocument(docs[i]) =>
          IndexDocument(docs[i].id, docs[i].text.value, docs[i].metadata))))
  }

  /** A search request body as it arrives. */
  datatype RawSearchRequest = RawSearchRequest(collectionName: Option<string>, query: Option<string>, k: Option<real>)

  datatype SearchRequest = SearchRequest(collectionName: Option<string>, query: string, k: Option<int>)

  predicate KOk(k: Option<real>) {
    k.None? || (IsInteger(k.value) && 0.0 < k.value <= MAX_K as real)
  }

  /** `RagSearchRequestSchema`: a non-empty query and an integer `k` in 1..20 when given. */
  predicate ValidSearchRequest(raw: RawSearchRequest) {
    NonEmptyIfPresent(raw.collectionName) && MessageOk(raw.query) && KOk(raw.k)
  }

  function SearchRequestIssues(raw: RawSearchRequest): (issues: seq<string>)
    ensures issues == [] <==> ValidSearchRequest(raw)
    ensures "query" in issues <==> !MessageOk(raw.query)
    ensures "k" in issues <==> !KOk(raw.k)
  {
    var a := Issue(NonEmptyIfPresent(raw.collectionName), "collectionName");
    var b := Issue(MessageOk(raw.query), "query");
    var c := Issue(KOk(raw.k), "k");
    assert forall f :: f in a + b + c <==> f in a || f in b || f in c;
    a + b + c
  }

  function ParseSearchRequest(raw: RawSearchRequest): (r: Result<SearchRequest, Thrown>)
    ensures r.Ok? <==> ValidSearchRequest(raw)
    ensures r.Err? ==> r.error == ZodError(SearchRequestIssues(raw))
    ensures r.Ok? ==> && r.value.collectionName == raw.collectionName
                      && r.value.query == raw.query.value && |r.value.query| >= 1
                      && (r.value.k.Some? <==> raw.k.Some?)
                      && (r.value.k.Some? ==> r.value.k.value as real == raw.k.value && 1 <= r.value.k.value <= MAX_K)
  {
    if !ValidSearchRequest(raw) then Err(ZodError(SearchRequestIssues(raw)))
    else Ok(SearchRequest(raw.collectionName, raw.query.value, if raw.k.Some? then Some(raw.k.value.Floor) else None))
  }

  /** The gateway key of the embeddings: `LITELLM_API_KEY`, else `LITELLM_MASTER_KEY`. */
  function EmbeddingGatewayKey(config: Env): Option<string> {
    Get(config, "LITELLM_API_KEY").OrElse(Get(config, "LITELLM_MASTER_KEY"))
  }

  /** The collection a request works on: its own, else `QDRANT_COLLECTION`, else `documents`. */
  function CollectionFor(config: Env, collectionName: Option<string>): string {
    collectionName.GetOr(Get(config, "QDRANT_COLLECTION").GetOr(DEFAULT_COLLECTION))
  }

  /** `getQdrantConfig`: fails, in this order, without a Qdrant URL; in
      gateway mode (the strict flag) without the gateway key or base URL; and
      otherwise without the OpenAI key. A configuration embeds with the
      gateway key and base URL in gateway mode and with the OpenAI key and no
      base URL otherwise, so its key is never empty. */
  function GetQdrantConfig(config: Env, collectionName: Option<string>): (r: Result<QdrantStoreConfig, Thrown>)
    ensures !Truthy(Get(config, "QDRANT_URL")) ==> r == Err(Error(QDRANT_URL_MISSING))
    ensures Truthy(Get(config, "QDRANT_URL")) && StrictUseLiteLlm(config) ==>
              (r.Err? <==> !Truthy(EmbeddingGatewayKey(config)) || !Truthy(Get(config, "LITELLM_BASE_URL")))
              && (r.Err? ==> r.error == Error(GATEWAY_EMBEDDING_MISSING))
    ensures Truthy(Get(config, "QDRANT_URL")) && !StrictUseLiteLlm(config) ==>
              (r.Err? <==> !Truthy(Get(config, "OPENAI_API_KEY")))
              && (r.Err? ==> r.error == Error(OPENAI_EMBEDDING_MISSING))
    ensures r.Ok? ==>
              && r.value.qdrantUrl == config["QDRANT_URL"]
              && r.value.qdrantApiKey == Some(Get(config, "QDRANT_API_KEY").GetOr(""))
              && r.value.collectionName == CollectionFor(config, collectionName)
              && |r.value.embeddingApiKey| >= 1
              && r.value.embeddingApiKey == (if StrictUseLiteLlm(config) then EmbeddingGatewayKey(config).value
                                             else config["OPENAI_API_KEY"])
              && (r.value.embeddingBaseUrl.Some? <==> StrictUseLiteLlm(config))
              && (r.value.embeddingBaseUrl.Some? ==> r.value.embeddingBaseUrl.value == config["LITELLM_BASE_URL"])
              && r.value.embeddingModel == Some(Get(config, "EMBEDDING_MODEL").GetOr(
                   if StrictUseLiteLlm(config) then GATEWAY_EMBEDDING_MODEL else DIRECT_EMBEDDING_MODEL))
              && r.value.vectorSize.None?
  {
    var qdrantUrl := Get(config, "QDRANT_URL").GetOr("");
    var useLiteLlm := StrictUseLiteLlm(config);
    var openaiApiKey := Get(config, "OPENAI_API_KEY").GetOr("");
    var liteLlmApiKey := EmbeddingGatewayKey(config).GetOr("");
    var liteLlmBaseUrl := Get(config, "LITELLM_BASE_URL").GetOr("");
    if qdrantUrl == "" then Err(Error(QDRANT_URL_MISSING))
    else if useLiteLlm && (liteLlmApiKey == "" || liteLlmBaseUrl == "") then Err(Error(GATEWAY_EMBEDDING_MISSING))
    else if !useLiteLlm && openaiApiKey == "" then Err(Error(OPENAI_EMBEDDING_MISSING))
    else
      Ok(QdrantStoreConfig(
        qdrantUrl,
        Some(Get(config, "QDRANT_API_KEY").GetOr("")),
        CollectionFor(config, collectionName),
        if useLiteLlm then liteLlmApiKey else openaiApiKey,
        if useLiteLlm then Some(liteLlmBaseUrl) else None,
        Some(Get(config, "EMBEDDING_MODEL").GetOr(if useLiteLlm then GATEWAY_EMBEDDING_MODEL else DIRECT_EMBEDDING_MODEL)),
        None))
  }

  /** Every configuration the service accepts gives its store a base URL
      exactly in gateway mode, and that URL ends in `/v1`. */
  lemma GatewayEmbeddingsHaveBaseUrl(config: Env, collectionName: Option<string>)
    requires GetQdrantConfig(config, collectionName).Ok?
    ensures var e := EmbeddingsFor(GetQdrantConfig(config, collectionName).value);
            (e.baseUrl.Some? <==> StrictUseLiteLlm(config)) && (e.baseUrl.Some? ==> EndsWith(e.baseUrl.value, "/v1"))
  {
  }

  /** One indexed document as the store receives it: its text as the page
      content, its metadata with `sourceId` and `indexedAt` set over any
      values of the same name. */
  function ToVectorDocument(d: IndexDocument, sourceId: string, indexedAt: string): (v: VectorDocument)
    ensures v.pageContent == d.text
    ensures v.metadata.Keys == d.metadata.GetOr(map[]).Keys + {"sourceId", "indexedAt"}
    ensures v.metadata["sourceId"] == Str(sourceId) && v.metadata["indexedAt"] == Str(indexedAt)
    ensures forall k :: k in d.metadata.GetOr(map[]) && k != "sourceId" && k != "indexedAt" ==>
              v.metadata[k] == d.metadata.GetOr(map[])[k]
  {
    VectorDocument(d.text, d.metadata.GetOr(map[]) + map["sourceId" := Str(sourceId), "indexedAt" := Str(indexedAt)])
  }

  /** The documents of `indexDocuments`, one per input in order; a document
      without an id gets the fresh id of its position. */
  function BuildDocuments(docs: seq<IndexDocument>, freshId: nat -> string, indexedAt: string)
    : (out: seq<VectorDocument>)
    ensures |out| == |docs|
    ensures forall i :: 0 <= i < |docs| ==> out[i] == ToVectorDocument(docs[i], docs[i].id.GetOr(freshId(i)), indexedAt)
  {
    seq(|docs|, i requires 0 <= i < |docs| => ToVectorDocument(docs[i], docs[i].id.GetOr(freshId(i)), indexedAt))
  }

  /** All documents of one request carry the same `indexedAt`, and a supplied
      id becomes the `sourceId` unchanged. */
  lemma BuiltDocumentsShareIndexedAt(docs: seq<IndexDocument>, freshId: nat -> string, indexedAt: string, i: nat, j: nat)
    requires i < |docs| && j < |docs|
    ensures var out := BuildDocuments(docs, freshId, indexedAt);
            && "indexedAt" in out[i].metadata && "indexedAt" in out[j].metadata
            && out[i].metadata["indexedAt"] == out[j].metadata["indexedAt"]
            && (docs[i].id.Some? ==> out[i].metadata["sourceId"] == Str(docs[i].id.value))
  {
  }

  /** The answer of `indexDocuments`. */
  datatype IndexResult = IndexResult(collectionName: string, indexedCount: nat, ids: seq<JsValue>)

  /** One hit of `searchDocuments`. */
  datatype SearchHit = SearchHit(pageContent: string, metadata: map<string, JsValue>, score: real)

  /** The answer of `searchDocuments`. */
  datatype SearchResult = SearchResult(collectionName: string, query: string, k: int, results: seq<SearchHit>)

  /** The store's `[document, score]` pairs as hits, in the store's order. */
  function ToHits(pairs: seq<(VectorDocument, real)>): (hits: seq<SearchHit>)
    ensures |hits| == |pairs|
    ensures forall i :: 0 <= i < |pairs| ==>
              hits[i] == SearchHit(pairs[i].0.pageContent, pairs[i].0.metadata, pairs[i].1)
  {
    seq(|pairs|, i requires 0 <= i < |pairs| => SearchHit(pairs[i].0.pageContent, pairs[i].0.metadata, pairs[i].1))
  }

  /** `indexDocuments`. `freshId` stands for `randomUUID()`, `indexedAt` for
      the timestamp and `faults` for the Qdrant server's rejections. An
      invalid body is a bad request and touches nothing; a configuration error
      becomes a bad gateway with its message and touches nothing; a rejection
      while the store is opened is mapped like any other error; otherwise the
      documents are added, and the answer counts every input document. */
  method IndexDocuments(config: Env, raw: RawIndexRequest, qdrant: QdrantCollections, faults: QdrantFaults,
                        backend: VectorBackend, freshId: nat -> string, indexedAt: string)
    returns (r: Result<IndexResult, HttpError>)
    modifies qdrant
    ensures ParseIndexRequest(raw).Err? ==>
              r == Err(BadRequest(IndexRequestIssues(raw))) && qdrant.collections == old(qdrant.collections)
    ensures ParseIndexRequest(raw).Ok? ==>
      var input := ParseIndexRequest(raw).value;
      var cfg := GetQdrantConfig(config, input.collectionName);
      && (cfg.Err? ==> r == Err(BadGateway(cfg.error.message)) && qdrant.collections == old(qdrant.collections))
      && (cfg.Ok? ==>
            var ensured := EnsureFailure(old(qdrant.collections), cfg.value.collectionName, faults.listing, faults.creating);
            var store := OpenedStore(old(qdrant.collections), cfg.value, faults);
            var docs := BuildDocuments(input.documents, freshId, indexedAt);
            && qdrant.collections == (if ensured.None? then WithCollection(old(qdrant.collections), cfg.value.collectionName, None)
                                      else old(qdrant.collections))
            && (store.Err? ==> r == Err(MapError(store.error, INDEX_FALLBACK_MESSAGE)))
            && (store.Ok? ==>
                  && (r.Ok? <==> UpsertDocuments(backend, store.value, docs).Returned?)
                  && (r.Err? ==> r.error == MapError(UpsertDocuments(backend, store.value, docs).thrown,
                                                     INDEX_FALLBACK_MESSAGE))
                  && (r.Ok? ==> r.value == IndexResult(CollectionFor(config, input.collectionName),
                                                       |raw.documents.value|,
                                                       UpsertDocuments(backend, store.value, docs).value))))
  {
    var parsed := ParseIndexRequest(raw);
    if parsed.Err? {
      return Err(MapError(parsed.error, INDEX_FALLBACK_MESSAGE));
    }
    var input := parsed.value;
    var cfg := GetQdrantConfig(config, input.collectionName);
    if cfg.Err? {
      return Err(MapError(cfg.error, INDEX_FALLBACK_MESSAGE));
    }
    var store := CreateQdrantVectorStore(cfg.value, qdrant, faults);
    if store.Err? {
      return Err(MapError(store.error, INDEX_FALLBACK_MESSAGE));
    }
    var docs := BuildDocuments(input.documents, freshId, indexedAt);
    var ids := UpsertDocuments(backend, store.value, docs);
    if ids.Raised? {
      return Err(MapError(ids.thrown, INDEX_FALLBACK_MESSAGE));
    }
    r := Ok(IndexResult(CollectionFor(config, input.collectionName), |docs|, ids.value));
  }

  /** `searchDocuments`: as `indexDocuments` for the request, the
      configuration and opening the store; then the store is searched with
      `k`, 4 when absent, and the answer echoes the query and that `k` with the
      hits in the store's order. */
  method SearchDocuments(config: Env, raw: RawSearchRequest, qdrant: QdrantCollections, faults: QdrantFaults,
                         backend: VectorBackend)
    returns (r: Result<SearchResult, HttpError>)
    modifies qdrant
    ensures ParseSearchRequest(raw).Err? ==>
              r == Err(BadRequest(SearchRequestIssues(raw))) && qdrant.collections == old(qdrant.collections)
    ensures ParseSearchRequest(raw).Ok? ==>
      var input := ParseSearchRequest(raw).value;
      var cfg := GetQdrantConfig(config, input.collectionName);
      && (cfg.Err? ==> r == Err(BadGateway(cfg.error.message)) && qdrant.collections == old(qdrant.collections))
      && (cfg.Ok? ==>
            var ensured := EnsureFailure(old(qdrant.collections), cfg.value.collectionName, faults.listing, faults.creating);
            var store := OpenedStore(old(qdrant.collections), cfg.value, faults);
            && qdrant.collections == (if ensured.None? then WithCollection(old(qdrant.collections), cfg.value.collectionName, None)
                                      else old(qdrant.collections))
            && (store.Err? ==> r == Err(MapError(store.error, SEARCH_FALLBACK_MESSAGE)))
            && (store.Ok? ==>
                  var found := backend.similaritySearchWithScore(store.value, input.query, input.k.GetOr(DEFAULT_K));
                  && (r.Ok? <==> found.Returned?)
                  && (r.Err? ==> r.error == MapError(found.thrown, SEARCH_FALLBACK_MESSAGE))
                  && (r.Ok? ==> && r.value == SearchResult(CollectionFor(config, input.collectionName), input.query,
                                                           input.k.GetOr(DEFAULT_K), ToHits(found.value))
                                && 1 <= r.value.k <= MAX_K)))
  {
    var parsed := ParseSearchRequest(raw);
    if parsed.Err? {
      return Err(MapError(parsed.error, SEARCH_FALLBACK_MESSAGE));
    }
    var input := parsed.value;
    var cfg := GetQdrantConfig(config, input.collectionName);
    if cfg.Err? {
      return Err(MapError(cfg.error, SEARCH_FALLBACK_MESSAGE));
    }
    var store := CreateQdrantVectorStore(cfg.value, qdrant, faults);
    if store.Err? {
      return Err(MapError(store.error, SEARCH_FALLBACK_MESSAGE));
    }
    var found := SimilaritySearchWithScore(backend, store.value, input.query, Some(input.k.GetOr(DEFAULT_K)));
    if found.Raised? {
      return Err(MapError(found.thrown, SEARCH_FALLBACK_MESSAGE));
    }
    r := Ok(SearchResult(CollectionFor(config, input.collectionName), input.query, input.k.GetOr(DEFAULT_K),
                         ToHits(found.value)));
  }
}
