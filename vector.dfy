/** The Qdrant vector store helpers: the embedding base URL normaliser, the
    create-if-absent step on the server's collections, the configuration of
    the embeddings and the store, and the guards around adding and searching
    documents. */
module Vector {
  import opened Wrappers
  import opened Runtime
  import opened Text
  import opened Server

  const DEFAULT_EMBEDDING_MODEL := "text-embedding-3-small"
  const DEFAULT_VECTOR_SIZE := 1536
  const DEFAULT_SEARCH_LIMIT := 4

  /** `normalizeEmbeddingBaseUrl`: drop every trailing `/`, then append `/v1`
      unless it is already there; surrounding whitespace is kept. */
  function NormalizeEmbeddingBaseUrl(baseUrl: string): (r: string)
    ensures EndsWith(r, "/v1") && r[|r| - 1] != '/'
    ensures var stripped := StripTrailingSlashes(baseUrl);
            (r == stripped <==> EndsWith(stripped, "/v1")) && (r == stripped || r == stripped + "/v1")
  {
    var stripped := StripTrailingSlashes(baseUrl);
    if EndsWith(stripped, "/v1") then
      assert stripped[|stripped| - 1] == '1';
      stripped
    else
      var r := stripped + "/v1";
      assert |r| == |stripped| + 3 && r[|r| - 1] == '1';
      assert r[|stripped|..] == "/v1";
      r
  }

  /** Normalising an already normalised embedding base URL changes nothing. */
  lemma NormalizeEmbeddingIdempotent(baseUrl: string)
    ensures NormalizeEmbeddingBaseUrl(NormalizeEmbeddingBaseUrl(baseUrl)) == NormalizeEmbeddingBaseUrl(baseUrl)
  {
    StripKeeps(NormalizeEmbeddingBaseUrl(baseUrl));
  }

  /** The chat client's normaliser is this one applied after `trim`. */
  lemma LiteLlmNormalizerTrimsFirst(url: string)
    ensures NormalizeLiteLlmBaseUrl(url) == NormalizeEmbeddingBaseUrl(Trim(url))
  {
  }

  /** A trailing space hides the trailing `/` from the embedding normaliser. */
  lemma EmbeddingKeepsWhitespace()
    ensures NormalizeEmbeddingBaseUrl("h/ ") == "h/ /v1"
  {
    StripKeeps("h/ ");
    assert !EndsWith("h/ ", "/v1");
  }

  /** The chat client's normaliser trims `host + "/ "` first, so it then
      drops the `/` the embedding normaliser keeps. */
  lemma LiteLlmTrimsWhitespace(host: string)
    requires host != [] && IsTrimmed(host) && host[|host| - 1] != '/' && !EndsWith(host, "/v1")
    ensures NormalizeLiteLlmBaseUrl(host + "/ ") == host + "/v1"
  {
    var u := host + "/ ";
    assert Trim(u) == host + "/" by {
      var h := host + "/";
      assert h[0] == host[0] && h[|h| - 1] == '/';
      assert u == h + [' '];
      TrimDropsTrailingWhitespace(h, ' ');
    }
    assert NormalizeEmbeddingBaseUrl(host + "/") == host + "/v1" by {
      StripOne(host);
    }
    LiteLlmNormalizerTrimsFirst(u);
  }

  datatype Distance = Cosine

  /** The vector parameters a collection is created with. */
  datatype CollectionParams = CollectionParams(size: int, distance: Distance)

  /** The collections after `ensureQdrantCollection`: unchanged when `name`
      exists, otherwise with `name` added, of the requested size (1536 when
      none is given) and cosine distance. */
  function WithCollection(collections: map<string, CollectionParams>, name: string, vectorSize: Option<int>)
    : (r: map<string, CollectionParams>)
    ensures r.Keys == collections.Keys + {name}
    ensures forall n :: n in collections ==> r[n] == collections[n]
    ensures name !in collections ==> r[name] == CollectionParams(vectorSize.GetOr(DEFAULT_VECTOR_SIZE), Cosine)
  {
    if name in collections then collections
    else collections[name := CollectionParams(vectorSize.GetOr(DEFAULT_VECTOR_SIZE), Cosine)]
  }

  /** Ensuring a collection twice is ensuring it once, whatever size the
      second call asks for. */
  lemma WithCollectionIdempotent(collections: map<string, CollectionParams>, name: string,
                                 size1: Option<int>, size2: Option<int>)
    ensures WithCollection(WithCollection(collections, name, size1), name, size2)
            == WithCollection(collections, name, size1)
  {
  }

  /** The rejection `ensureQdrantCollection` ends with, if any: listing the
      collections can fail, and creating the missing one can fail. */
  function EnsureFailure(collections: map<string, CollectionParams>, name: string,
                         listing: Option<Thrown>, creating: Option<Thrown>): Option<Thrown>
  {
    if listing.Some? then listing
    else if name in collections then None
    else creating
  }

  /** The collections of the Qdrant server. */
  class QdrantCollections {
    var collections: map<string, CollectionParams>

    constructor (collections: map<string, CollectionParams>)
      ensures this.collections == collections
    {
      this.collections := collections;
    }

    /** `ensureQdrantCollection`: lists the collections (`listing` is that
        call's rejection, if any) and creates `name` only when no collection
        has that name (`creating` is the rejection of the create). A rejection
        is passed on and leaves the collections as they were. */
    method EnsureCollection(name: string, vectorSize: Option<int>, listing: Option<Thrown>, creating: Option<Thrown>)
      returns (failure: Option<Thrown>)
      modifies this
      ensures listing.Some? ==> failure == listing
      ensures listing.None? && name in old(collections) ==> failure.None?
      ensures listing.None? && name !in old(collections) ==> failure == creating
      ensures failure.Some? ==> collections == old(collections)
      ensures failure.None? ==> collections == WithCollection(old(collections), name, vectorSize)
      ensures collections != old(collections) <==> failure.None? && name !in old(collections)
    {
      if listing.Some? {
        return listing;
      }
      var hasCollection := name in collections;
      if !hasCollection {
        if creating.Some? {
          return creating;
        }
        collections := collections[name := CollectionParams(vectorSize.GetOr(DEFAULT_VECTOR_SIZE), Cosine)];
      }
      failure := None;
    }
  }

  /** `QdrantStoreConfig`. */
  datatype QdrantStoreConfig = QdrantStoreConfig(
    qdrantUrl: string,
    qdrantApiKey: Option<string>,
    collectionName: string,
    embeddingApiKey: string,
    embeddingBaseUrl: Option<string>,
    embeddingModel: Option<string>,
    vectorSize: Option<int>)

  /** The options `OpenAIEmbeddings` is constructed with. */
  datatype EmbeddingsSpec = EmbeddingsSpec(apiKey: string, model: string, baseUrl: Option<string>)

  /** The embeddings of a store: a base URL only for a non-empty configured
      one, normalised; the model `text-embedding-3-small` unless one is given. */
  function EmbeddingsFor(config: QdrantStoreConfig): (e: EmbeddingsSpec)
    ensures e.apiKey == config.embeddingApiKey
    ensures e.model == config.embeddingModel.GetOr(DEFAULT_EMBEDDING_MODEL)
    ensures e.baseUrl.Some? <==> Truthy(config.embeddingBaseUrl)
    ensures e.baseUrl.Some? ==> EndsWith(e.baseUrl.value, "/v1")
                                && e.baseUrl.value == NormalizeEmbeddingBaseUrl(config.embeddingBaseUrl.value)
  {
    EmbeddingsSpec(
      config.embeddingApiKey,
      config.embeddingModel.GetOr(DEFAULT_EMBEDDING_MODEL),
      if Truthy(config.embeddingBaseUrl) then Some(NormalizeEmbeddingBaseUrl(config.embeddingBaseUrl.value)) else None)
  }

  /** A vector store opened on an existing collection. */
  datatype VectorStore = VectorStore(
    qdrantUrl: string, qdrantApiKey: Option<string>, collectionName: string, embeddings: EmbeddingsSpec)

  /** The Qdrant server's possible rejections while a store is opened: of
      listing the collections, of creating one, and of opening the store. */
  datatype QdrantFaults = QdrantFaults(listing: Option<Thrown>, creating: Option<Thrown>, opening: Option<Thrown>)

  /** What opening a store on `collections` gives: the first rejection among
      ensuring the collection and opening the store, else the store on the
      configured collection with `EmbeddingsFor`. */
  function OpenedStore(collections: map<string, CollectionParams>, config: QdrantStoreConfig, faults: QdrantFaults)
    : (r: Result<VectorStore, Thrown>)
    ensures var ensured := EnsureFailure(collections, config.collectionName, faults.listing, faults.creating);
            && (r.Ok? <==> ensured.None? && faults.opening.None?)
            && (ensured.Some? ==> r == Err(ensured.value))
            && (ensured.None? && faults.opening.Some? ==> r == Err(faults.opening.value))
            && (r.Ok? ==> r.value == VectorStore(config.qdrantUrl, config.qdrantApiKey, config.collectionName,
                                                 EmbeddingsFor(config)))
    ensures faults == QdrantFaults(None, None, None) ==> r.Ok?
  {
    var ensured := EnsureFailure(collections, config.collectionName, faults.listing, faults.creating);
    if ensured.Some? then Err(ensured.value)
    else if faults.opening.Some? then Err(faults.opening.value)
    else Ok(VectorStore(config.qdrantUrl, config.qdrantApiKey, config.collectionName, EmbeddingsFor(config)))
  }

  /** `createQdrantVectorStore`: ensures the configured collection exists
      (1536 dimensions unless the configuration says otherwise), then opens the
      store on it with `EmbeddingsFor`; a rejection of either step is passed
      on, and the collection stays created when only the opening fails. */
  method CreateQdrantVectorStore(config: QdrantStoreConfig, qdrant: QdrantCollections, faults: QdrantFaults)
    returns (r: Result<VectorStore, Thrown>)
    modifies qdrant
    ensures r == OpenedStore(old(qdrant.collections), config, faults)
    ensures var ensured := EnsureFailure(old(qdrant.collections), config.collectionName, faults.listing, faults.creating);
            && (ensured.Some? ==> qdrant.collections == old(qdrant.collections))
            && (ensured.None? ==>
                  qdrant.collections == WithCollection(old(qdrant.collections), config.collectionName, config.vectorSize))
  {
    var failure := qdrant.EnsureCollection(config.collectionName, Some(config.vectorSize.GetOr(DEFAULT_VECTOR_SIZE)),
                                           faults.listing, faults.creating);
    if failure.Some? {
      return Err(failure.value);
    }
    if faults.opening.Some? {
      return Err(faults.opening.value);
    }
    r := Ok(VectorStore(config.qdrantUrl, config.qdrantApiKey, config.collectionName, EmbeddingsFor(config)));
  }

  /** A document as the store receives it. */
  datatype VectorDocument = VectorDocument(pageContent: string, metadata: map<string, JsValue>)

  /** The store's own operations, as functions of the store and their arguments. */
  datatype VectorBackend = VectorBackend(
    addDocuments: (VectorStore, seq<VectorDocument>) -> Sdk<JsValue>,
    similaritySearch: (VectorStore, string, int) -> Sdk<seq<VectorDocument>>,
    similaritySearchWithScore: (VectorStore, string, int) -> Sdk<seq<(VectorDocument, real)>>)

  /** `upsertDocuments`: no documents give no ids without a call to the store;
      otherwise the store's ids when it answers with an array, and no ids when
      it answers with anything else. */
  function UpsertDocuments(backend: VectorBackend, store: VectorStore, documents: seq<VectorDocument>)
    : (r: Sdk<seq<JsValue>>)
    ensures documents == [] ==> r == Returned([])
    ensures documents != [] ==>
              && (r.Raised? <==> backend.addDocuments(store, documents).Raised?)
              && (r.Raised? ==> r.thrown == backend.addDocuments(store, documents).thrown)
              && (r.Returned? && backend.addDocuments(store, documents).value.Arr? ==>
                    r.value == backend.addDocuments(store, documents).value.items)
              && (r.Returned? && !backend.addDocuments(store, documents).value.Arr? ==> r.value == [])
  {
    if documents == [] then Returned([])
    else
      match backend.addDocuments(store, documents)
      case Raised(e) => Raised(e)
      case Returned(result) => Returned(if result.Arr? then result.items else [])
  }

  /** With no documents the store is not consulted: any two stores give the same answer. */
  lemma UpsertNothingIgnoresStore(b1: VectorBackend, b2: VectorBackend, store: VectorStore)
    ensures UpsertDocuments(b1, store, []) == UpsertDocuments(b2, store, []) == Returned([])
  {
  }

  /** `similaritySearch`: the store's search, with the limit 4 unless one is given. */
  function SimilaritySearch(backend: VectorBackend, store: VectorStore, query: string, limit: Option<int>)
    : (r: Sdk<seq<VectorDocument>>)
    ensures limit.None? ==> r == backend.similaritySearch(store, query, DEFAULT_SEARCH_LIMIT)
    ensures limit.Some? ==> r == backend.similaritySearch(store, query, limit.value)
  {
    backend.similaritySearch(store, query, limit.GetOr(DEFAULT_SEARCH_LIMIT))
  }

  /** `similaritySearchWithScore`: the store's scored search, with the limit 4
      unless one is given. */
  function SimilaritySearchWithScore(backend: VectorBackend, store: VectorStore, query: string, limit: Option<int>)
    : (r: Sdk<seq<(VectorDocument, real)>>)
    ensures limit.None? ==> r == backend.similaritySearchWithScore(store, query, DEFAULT_SEARCH_LIMIT)
    ensures limit.Some? ==> r == backend.similaritySearchWithScore(store, query, limit.value)
  {
    backend.similaritySearchWithScore(store, query, limit.GetOr(DEFAULT_SEARCH_LIMIT))
  }
}
