/**
 * The `/retrieve` endpoint: for each query, embed it, search the namespace's
 * vector index, rerank the hits' texts, join each rerank result back to the
 * hit it names, sort by reranker score and emit one object per chunk.
 *
 * The three remote services (embeddings, vector search, reranking) are
 * inputs: a `Services` value holds one total function per service.
 * `GetContext` also returns the sequence of requests it sends to them, so
 * what is (and is not) called can be stated.
 */
module Retrieve {
  import opened StableSort

  type Vector = seq<real>

  /** One vector-search hit: its id, its distance, its stored vector and the two requested attributes. */
  datatype Hit = Hit(id: string, dist: real, vector: Vector, text: string, fileID: string)

  /** One rerank result: a position in the submitted documents, a relevance score and the document's text. */
  datatype RerankResult = RerankResult(index: int, relevanceScore: real, document: string)

  /** The `Retrieval` record built for each rerank result. */
  datatype Retrieval = Retrieval(
    text: string,
    embedding: Vector,
    vectorID: string,
    fileID: string,
    cosineSimilarityScore: real,
    rerankerScore: real)

  /** One emitted object: the serialised fields of a chunk, without its embedding. */
  datatype ChunkObject = ChunkObject(
    text: string,
    vectorID: string,
    fileID: string,
    cosineSimilarityScore: real,
    rerankerScore: real)

  /** A JSON value: a string or a number. */
  datatype Value = Str(s: string) | Num(x: real)

  datatype EmbeddingRequest = EmbeddingRequest(input: string, model: string, dimensions: nat)
  datatype SearchRequest = SearchRequest(vector: Vector, distanceMetric: string, topK: nat, includeAttributes: seq<string>)
  datatype RerankRequest = RerankRequest(model: string, query: string, documents: seq<string>, topN: nat, returnDocuments: bool)

  /** A request sent to one of the three services. */
  datatype Call =
    | Embed(embedRequest: EmbeddingRequest)
    | Query(namespace: string, searchRequest: SearchRequest)
    | Rerank(rerankRequest: RerankRequest)

  /** The remote services, as the answers they give to each request. */
  datatype Services = Services(
    embed: EmbeddingRequest -> Vector,
    query: (string, SearchRequest) -> seq<Hit>,
    rerank: RerankRequest -> seq<RerankResult>)

  const EmbeddingModel := "text-embedding-3-small"
  const EmbeddingDimensions := 512
  const DistanceMetric := "cosine_distance"
  const TopK := 10
  const SearchAttributes := ["text", "fileID"]
  const RerankModel := "rerank-multilingual-v3.0"
  const TopN := 10

  /** The keys of every emitted object. */
  const ObjectKeys: set<string> := {"text", "vectorID", "fileID", "cosine_similarity_score", "reranker_score"}

  function EmbeddingRequestFor(query: string): EmbeddingRequest {
    EmbeddingRequest(query, EmbeddingModel, EmbeddingDimensions)
  }

  function SearchRequestFor(embedding: Vector): SearchRequest {
    SearchRequest(embedding, DistanceMetric, TopK, SearchAttributes)
  }

  function RerankRequestFor(query: string, docs: seq<string>): RerankRequest {
    RerankRequest(RerankModel, query, docs, TopN, true)
  }

  /** The reranker's document list: the `text` attribute of every hit, in hit order. */
  function Docs(hits: seq<Hit>): seq<string> {
    seq(|hits|, k requires 0 <= k < |hits| => hits[k].text)
  }

  /** Every rerank result names a position of `hits`. */
  ghost predicate IndicesValid(hits: seq<Hit>, results: seq<RerankResult>) {
    forall k :: 0 <= k < |results| ==> 0 <= results[k].index < |hits|
  }

  /** `c` takes its text and reranker score from `r`, and everything else from `h`. */
  ghost predicate JoinedFrom(c: Retrieval, h: Hit, r: RerankResult) {
    && c.text == r.document
    && c.embedding == h.vector
    && c.vectorID == h.id
    && c.fileID == h.fileID
    && c.cosineSimilarityScore == h.dist
    && c.rerankerScore == r.relevanceScore
  }

  /** One `Retrieval` per rerank result, in rerank order, each joined to the hit at its index. */
  function Join(hits: seq<Hit>, results: seq<RerankResult>): seq<Retrieval>
    requires IndicesValid(hits, results)
  {
    seq(|results|, k requires 0 <= k < |results| =>
      var r := results[k];
      var h := hits[r.index];
      Retrieval(r.document, h.vector, h.id, h.fileID, h.dist, r.relevanceScore))
  }

  /** The sort key. */
  function RerankerScore(c: Retrieval): real {
    c.rerankerScore
  }

  /** The emitted object for a chunk. */
  function Project(c: Retrieval): ChunkObject {
    ChunkObject(c.text, c.vectorID, c.fileID, c.cosineSimilarityScore, c.rerankerScore)
  }

  /** The JSON dictionary an emitted object is serialised as. */
  function AsDict(o: ChunkObject): map<string, Value> {
    map[
      "text" := Str(o.text),
      "vectorID" := Str(o.vectorID),
      "fileID" := Str(o.fileID),
      "cosine_similarity_score" := Num(o.cosineSimilarityScore),
      "reranker_score" := Num(o.rerankerScore)]
  }

  /** The projection of every chunk, in order. */
  function ProjectAll(chunks: seq<Retrieval>): seq<ChunkObject> {
    seq(|chunks|, k requires 0 <= k < |chunks| => Project(chunks[k]))
  }

  /** The hits the vector index returns for `query`. */
  function HitsFor(svc: Services, namespace: string, query: string): seq<Hit> {
    svc.query(namespace, SearchRequestFor(svc.embed(EmbeddingRequestFor(query))))
  }

  /** What the reranker returns for `query` and the documents of `hits`. */
  function RerankedFor(svc: Services, query: string, hits: seq<Hit>): seq<RerankResult> {
    svc.rerank(RerankRequestFor(query, Docs(hits)))
  }

  /** The services answer `query` with rerank indices that are valid positions of the hits. */
  ghost predicate Admissible(svc: Services, namespace: string, query: string) {
    var hits := HitsFor(svc, namespace, query);
    hits != [] ==> IndicesValid(hits, RerankedFor(svc, query, hits))
  }

  /** The joined chunks of one query, sorted by reranker score (empty when the search found nothing). */
  function RankedChunks(svc: Services, namespace: string, query: string): seq<Retrieval>
    requires Admissible(svc, namespace, query)
  {
    var hits := HitsFor(svc, namespace, query);
    if hits == [] then [] else SortByKeyDesc(Join(hits, RerankedFor(svc, query, hits)), RerankerScore)
  }

  /** The inner list of the response for one query. */
  function QueryResult(svc: Services, namespace: string, query: string): seq<ChunkObject>
    requires Admissible(svc, namespace, query)
  {
    ProjectAll(RankedChunks(svc, namespace, query))
  }

  /** The requests sent while answering one query: embed, search, and rerank only if there were hits. */
  function QueryCalls(svc: Services, namespace: string, query: string): seq<Call> {
    var e := EmbeddingRequestFor(query);
    var s := SearchRequestFor(svc.embed(e));
    var hits := svc.query(namespace, s);
    [Embed(e), Query(namespace, s)] + if hits == [] then [] else [Rerank(RerankRequestFor(query, Docs(hits)))]
  }

  /** The requests sent while answering `queries`, query by query. */
  function BatchCalls(svc: Services, namespace: string, queries: seq<string>): seq<Call> {
    if queries == [] then []
    else BatchCalls(svc, namespace, queries[..|queries| - 1]) + QueryCalls(svc, namespace, queries[|queries| - 1])
  }

  // ---------------------------------------------------------------------
  // Properties of one query's result
  // ---------------------------------------------------------------------

  /** No hits: the result is `[]` and the reranker is not asked; only embed and search are sent. */
  lemma NoHitsNoRerank(svc: Services, namespace: string, query: string)
    requires HitsFor(svc, namespace, query) == []
    ensures QueryResult(svc, namespace, query) == []
    ensures |QueryCalls(svc, namespace, query)| == 2
    ensures forall c :: c in QueryCalls(svc, namespace, query) ==> !c.Rerank?
  {
  }

  /**
   * The reranker is asked exactly when the search found hits, and then once,
   * with the hits' texts in hit order as its documents.
   */
  lemma RerankRequestedIffHits(svc: Services, namespace: string, query: string)
    ensures (exists c :: c in QueryCalls(svc, namespace, query) && c.Rerank?) <==> HitsFor(svc, namespace, query) != []
    ensures HitsFor(svc, namespace, query) != [] ==>
      var hits := HitsFor(svc, namespace, query);
      var calls := QueryCalls(svc, namespace, query);
      && |calls| == 3
      && calls[2].Rerank?
      && |calls[2].rerankRequest.documents| == |hits|
      && (forall k :: 0 <= k < |hits| ==> calls[2].rerankRequest.documents[k] == hits[k].text)
  {
    var calls := QueryCalls(svc, namespace, query);
    if HitsFor(svc, namespace, query) != [] {
      assert calls[2] in calls;
    }
  }

  /** A query with hits yields exactly one emitted object per rerank result. */
  lemma QueryResultLength(svc: Services, namespace: string, query: string)
    requires Admissible(svc, namespace, query)
    requires HitsFor(svc, namespace, query) != []
    ensures |QueryResult(svc, namespace, query)| == |RerankedFor(svc, query, HitsFor(svc, namespace, query))|
  {
    var hits := HitsFor(svc, namespace, query);
    SortByKeyDescSortedPermutation(Join(hits, RerankedFor(svc, query, hits)), RerankerScore);
  }

  /** Reranker scores never increase along a query's emitted list. */
  lemma QueryResultOrdered(svc: Services, namespace: string, query: string)
    requires Admissible(svc, namespace, query)
    ensures forall i, j :: 0 <= i < j < |QueryResult(svc, namespace, query)| ==>
      QueryResult(svc, namespace, query)[i].rerankerScore >= QueryResult(svc, namespace, query)[j].rerankerScore
  {
    var hits := HitsFor(svc, namespace, query);
    if hits != [] {
      var joined := Join(hits, RerankedFor(svc, query, hits));
      SortByKeyDescSortedPermutation(joined, RerankerScore);
      var ranked := RankedChunks(svc, namespace, query);
      assert SortedDesc(ranked, RerankerScore);
      forall i, j | 0 <= i < j < |QueryResult(svc, namespace, query)|
        ensures QueryResult(svc, namespace, query)[i].rerankerScore >= QueryResult(svc, namespace, query)[j].rerankerScore
      {
        assert RerankerScore(ranked[i]) >= RerankerScore(ranked[j]);
      }
    }
  }

  /**
   * The ranked chunks of a query with hits are the joined chunks reordered:
   * the same multiset, and at every score value the reranker's order.
   */
  lemma RankedChunksStablePermutation(svc: Services, namespace: string, query: string)
    requires Admissible(svc, namespace, query)
    requires HitsFor(svc, namespace, query) != []
    ensures
      var hits := HitsFor(svc, namespace, query);
      var joined := Join(hits, RerankedFor(svc, query, hits));
      && multiset(RankedChunks(svc, namespace, query)) == multiset(joined)
      && forall v :: Ties(RankedChunks(svc, namespace, query), RerankerScore, v) == Ties(joined, RerankerScore, v)
  {
    var hits := HitsFor(svc, namespace, query);
    var joined := Join(hits, RerankedFor(svc, query, hits));
    SortByKeyDescSortedPermutation(joined, RerankerScore);
    SortByKeyDescStable(joined, RerankerScore);
  }

  /**
   * Every emitted object comes from one rerank result: its text and reranker
   * score are that result's, and its vector id, file id and cosine score
   * those of the hit at the result's index.
   */
  lemma QueryResultProvenance(svc: Services, namespace: string, query: string, i: int)
    requires Admissible(svc, namespace, query)
    requires 0 <= i < |QueryResult(svc, namespace, query)|
    ensures
      var hits := HitsFor(svc, namespace, query);
      var results := RerankedFor(svc, query, hits);
      exists k :: 0 <= k < |results| && 0 <= results[k].index < |hits|
        && ObjectFrom(QueryResult(svc, namespace, query)[i], hits[results[k].index], results[k])
  {
    var hits := HitsFor(svc, namespace, query);
    var results := RerankedFor(svc, query, hits);
    var joined := Join(hits, results);
    var ranked := RankedChunks(svc, namespace, query);
    SortByKeyDescSortedPermutation(joined, RerankerScore);
    assert ranked[i] in multiset(joined);
    var k :| 0 <= k < |joined| && joined[k] == ranked[i];
    assert ObjectFrom(QueryResult(svc, namespace, query)[i], hits[results[k].index], results[k]);
  }

  /** Conversely, every rerank result of a query with hits is emitted. */
  lemma QueryResultCoversRerank(svc: Services, namespace: string, query: string, k: int)
    requires Admissible(svc, namespace, query)
    requires HitsFor(svc, namespace, query) != []
    requires 0 <= k < |RerankedFor(svc, query, HitsFor(svc, namespace, query))|
    ensures
      var hits := HitsFor(svc, namespace, query);
      var results := RerankedFor(svc, query, hits);
      0 <= results[k].index < |hits| &&
      exists i :: 0 <= i < |QueryResult(svc, namespace, query)|
        && ObjectFrom(QueryResult(svc, namespace, query)[i], hits[results[k].index], results[k])
  {
    var hits := HitsFor(svc, namespace, query);
    var results := RerankedFor(svc, query, hits);
    var joined := Join(hits, results);
    var ranked := RankedChunks(svc, namespace, query);
    SortByKeyDescSortedPermutation(joined, RerankerScore);
    assert joined[k] in multiset(ranked);
    var i :| 0 <= i < |ranked| && ranked[i] == joined[k];
    assert ObjectFrom(QueryResult(svc, namespace, query)[i], hits[results[k].index], results[k]);
  }

  /**
   * When the index returns hits with distinct ids and the reranker names each
   * hit at most once, no vector id is emitted twice for the query.
   */
  lemma QueryResultIdsDistinct(svc: Services, namespace: string, query: string)
    requires Admissible(svc, namespace, query)
    requires
      var hits := HitsFor(svc, namespace, query);
      forall a, b :: 0 <= a < b < |hits| ==> hits[a].id != hits[b].id
    requires
      var results := RerankedFor(svc, query, HitsFor(svc, namespace, query));
      forall a, b :: 0 <= a < b < |results| ==> results[a].index != results[b].index
    ensures
      var emitted := QueryResult(svc, namespace, query);
      forall a, b :: 0 <= a < b < |emitted| ==> emitted[a].vectorID != emitted[b].vectorID
  {
    var hits := HitsFor(svc, namespace, query);
    var emitted := QueryResult(svc, namespace, query);
    if hits != [] {
      var results := RerankedFor(svc, query, hits);
      var joined := Join(hits, results);
      var ranked := RankedChunks(svc, namespace, query);
      assert forall a, b :: 0 <= a < b < |joined| ==> joined[a].vectorID != joined[b].vectorID by {
        forall a, b | 0 <= a < b < |joined| ensures joined[a].vectorID != joined[b].vectorID {
          var ia, ib := results[a].index, results[b].index;
          if ia < ib {
            assert hits[ia].id != hits[ib].id;
          } else {
            assert hits[ib].id != hits[ia].id;
          }
        }
      }
      SortByKeyDescSortedPermutation(joined, RerankerScore);
      PermutationKeepsDistinct(joined, ranked);
      forall a, b | 0 <= a < b < |emitted| ensures emitted[a].vectorID != emitted[b].vectorID {
        assert ranked[a] in multiset(joined) && ranked[b] in multiset(joined);
        var ka :| 0 <= ka < |joined| && joined[ka] == ranked[a];
        var kb :| 0 <= kb < |joined| && joined[kb] == ranked[b];
        if ka < kb {
          assert joined[ka].vectorID != joined[kb].vectorID;
        } else {
          assert joined[kb].vectorID != joined[ka].vectorID;
        }
      }
    }
  }

  /** `o` is the emitted object for the chunk joined from `h` and `r`. */
  ghost predicate ObjectFrom(o: ChunkObject, h: Hit, r: RerankResult) {
    && o.text == r.document
    && o.vectorID == h.id
    && o.fileID == h.fileID
    && o.cosineSimilarityScore == h.dist
    && o.rerankerScore == r.relevanceScore
  }

  /**
   * An emitted object has exactly the five serialised keys, never
   * `embedding`, each holding the chunk's own value.
   */
  lemma EmittedDictionary(c: Retrieval)
    ensures AsDict(Project(c)).Keys == ObjectKeys
    ensures "embedding" !in AsDict(Project(c))
    ensures AsDict(Project(c))["text"] == Str(c.text)
    ensures AsDict(Project(c))["vectorID"] == Str(c.vectorID)
    ensures AsDict(Project(c))["fileID"] == Str(c.fileID)
    ensures AsDict(Project(c))["cosine_similarity_score"] == Num(c.cosineSimilarityScore)
    ensures AsDict(Project(c))["reranker_score"] == Num(c.rerankerScore)
  {
  }

  /** Two chunks are emitted identically exactly when they differ at most in their embedding. */
  lemma ProjectForgetsOnlyEmbedding(c1: Retrieval, c2: Retrieval)
    ensures Project(c1) == Project(c2) <==> c1.(embedding := c2.embedding) == c2
  {
  }

  // ---------------------------------------------------------------------
  // The loop body and the inner join loop
  // ---------------------------------------------------------------------

  /** The inner loop: one `Retrieval` per rerank result, joined to `vectors[result.index]`. */
  method JoinReranked(vectors: seq<Hit>, results: seq<RerankResult>) returns (chunks: seq<Retrieval>)
    requires IndicesValid(vectors, results)
    ensures |chunks| == |results|
    ensures forall k :: 0 <= k < |results| ==> JoinedFrom(chunks[k], vectors[results[k].index], results[k])
  {
    chunks := [];
    for idx := 0 to |results|
      invariant |chunks| == idx
      invariant forall k :: 0 <= k < idx ==> JoinedFrom(chunks[k], vectors[results[k].index], results[k])
    {
      var result := results[idx];
      chunks := chunks + [Retrieval(
        result.document,
        vectors[result.index].vector,
        vectors[result.index].id,
        vectors[result.index].fileID,
        vectors[result.index].dist,
        result.relevanceScore)];
    }
  }

  /**
   * The body of the endpoint's loop for one query: embed, search, and
   * either stop with `[]` when there are no hits or rerank, join, sort and
   * project. Also returns the requests sent, in order.
   */
  method RetrieveForQuery(svc: Services, namespace: string, query: string)
    returns (inner: seq<ChunkObject>, queryCalls: seq<Call>)
    requires Admissible(svc, namespace, query)
    ensures inner == QueryResult(svc, namespace, query)
    ensures queryCalls == QueryCalls(svc, namespace, query)
  {
    var embeddingRequest := EmbeddingRequestFor(query);
    var embedding := svc.embed(embeddingRequest);
    queryCalls := [Embed(embeddingRequest)];

    var searchRequest := SearchRequestFor(embedding);
    var vectors := svc.query(namespace, searchRequest);
    queryCalls := queryCalls + [Query(namespace, searchRequest)];

    var docs := Docs(vectors);
    if docs == [] {
      inner := [];
      return;
    }
    var rerankRequest := RerankRequestFor(query, docs);
    var rerankResults := svc.rerank(rerankRequest);
    queryCalls := queryCalls + [Rerank(rerankRequest)];

    var retrievedChunks := JoinReranked(vectors, rerankResults);
    assert retrievedChunks == Join(vectors, rerankResults);
    retrievedChunks := SortByKeyDesc(retrievedChunks, RerankerScore);
    inner := ProjectAll(retrievedChunks);
  }

  // ---------------------------------------------------------------------
  // The batch
  // ---------------------------------------------------------------------

  /** The response for `queries`: one inner list per query, in query order. */
  ghost function Responses(svc: Services, namespace: string, queries: seq<string>): seq<seq<ChunkObject>>
    requires forall i :: 0 <= i < |queries| ==> Admissible(svc, namespace, queries[i])
  {
    if queries == [] then []
    else
      var q := queries[|queries| - 1];
      Responses(svc, namespace, queries[..|queries| - 1]) + [QueryResult(svc, namespace, q)]
  }

  /** Entry `k` of the response is the result for `queries[k]`. */
  lemma {:induction false} ResponsesAligned(svc: Services, namespace: string, queries: seq<string>)
    requires forall i :: 0 <= i < |queries| ==> Admissible(svc, namespace, queries[i])
    ensures |Responses(svc, namespace, queries)| == |queries|
    ensures forall k :: 0 <= k < |queries| ==> Responses(svc, namespace, queries)[k] == QueryResult(svc, namespace, queries[k])
  {
    if queries != [] {
      var prefix := queries[..|queries| - 1];
      ResponsesAligned(svc, namespace, prefix);
      forall k | 0 <= k < |queries|
        ensures Responses(svc, namespace, queries)[k] == QueryResult(svc, namespace, queries[k])
      {
        if k < |prefix| {
          assert prefix[k] == queries[k];
          assert Responses(svc, namespace, queries)[k] == Responses(svc, namespace, prefix)[k];
        }
      }
    }
  }

  /** The reranker is never sent an empty document list. */
  lemma {:induction false} BatchNeverReranksEmpty(svc: Services, namespace: string, queries: seq<string>)
    ensures forall c :: c in BatchCalls(svc, namespace, queries) && c.Rerank? ==> c.rerankRequest.documents != []
  {
    if queries != [] {
      BatchNeverReranksEmpty(svc, namespace, queries[..|queries| - 1]);
      var q := queries[|queries| - 1];
      if HitsFor(svc, namespace, q) != [] {
        RerankRequestedIffHits(svc, namespace, q);
      }
    }
  }

  /** A namespace with no hits for any query: every entry is `[]`, and the reranker is never called. */
  lemma {:induction false} EmptyNamespace(svc: Services, namespace: string, queries: seq<string>)
    requires forall i :: 0 <= i < |queries| ==> HitsFor(svc, namespace, queries[i]) == []
    ensures forall i :: 0 <= i < |queries| ==> Admissible(svc, namespace, queries[i])
    ensures forall r :: r in Responses(svc, namespace, queries) ==> r == []
    ensures |BatchCalls(svc, namespace, queries)| == 2 * |queries|
    ensures forall c :: c in BatchCalls(svc, namespace, queries) ==> !c.Rerank?
  {
    if queries != [] {
      var prefix := queries[..|queries| - 1];
      assert forall i :: 0 <= i < |prefix| ==> prefix[i] == queries[i];
      EmptyNamespace(svc, namespace, prefix);
      NoHitsNoRerank(svc, namespace, queries[|queries| - 1]);
    }
  }

  /**
   * The endpoint: one inner list per query, entry `i` the result for
   * `queries[i]`, and the requests sent to the services, in the order they
   * are sent.
   */
  method GetContext(svc: Services, queries: seq<string>, namespace: string)
    returns (response: seq<seq<ChunkObject>>, calls: seq<Call>)
    requires forall i :: 0 <= i < |queries| ==> Admissible(svc, namespace, queries[i])
    ensures |response| == |queries|
    ensures forall i :: 0 <= i < |queries| ==> response[i] == QueryResult(svc, namespace, queries[i])
    ensures calls == BatchCalls(svc, namespace, queries)
  {
    response := [];
    calls := [];
    for i := 0 to |queries|
      invariant response == Responses(svc, namespace, queries[..i])
      invariant calls == BatchCalls(svc, namespace, queries[..i])
    {
      assert queries[..i + 1][..i] == queries[..i];
      var inner, queryCalls := RetrieveForQuery(svc, namespace, queries[i]);
      response := response + [inner];
      calls := calls + queryCalls;
    }
    assert queries[..|queries|] == queries;
    ResponsesAligned(svc, namespace, queries);
  }
}
