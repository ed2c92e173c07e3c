# Retrieval endpoint of python-rag-scaffold, modelled in Dafny

The repository serves one endpoint, `POST /retrieve`. It takes a batch of
queries and a namespace. For each query it:

1. embeds the query (OpenAI embeddings, model `text-embedding-3-small`, 512 dimensions);
2. searches the namespace's vector index (turbopuffer, `cosine_distance`, top 10,
   attributes `text` and `fileID`);
3. stops with `[]` for that query when there are no hits;
4. otherwise reranks the hits' texts (Cohere `rerank-multilingual-v3.0`, top 10);
5. joins every rerank result back to the hit at its `index`, giving a `Retrieval` record;
6. sorts the records by reranker score, highest first (a stable sort);
7. emits one object per record, with `text`, `vectorID`, `fileID`,
   `cosine_similarity_score` and `reranker_score`. The embedding is not emitted.

The outer list of the response has one entry per query, in query order.

Files:

- `stable_sort.dfy`, module `StableSort`: Python's `list.sort(key=..., reverse=True)`.
  It is modelled as a stable insertion sort, with lemmas for:
  - the result is ordered;
  - the result is a permutation of the input;
  - the result is stable;
  - every stable descending sort gives this same list, so using insertion sort
    instead of CPython's Timsort changes nothing.
- `retrieve.dfy`, module `Retrieve`:
  - the records (`Hit`, `RerankResult`, `Retrieval`, `ChunkObject`);
  - the requests sent to the three services;
  - `Services`, which holds one total function per remote service;
  - the endpoint `GetContext` and its loop body `RetrieveForQuery`;
  - the inner join loop `JoinReranked`;
  - the specification functions `QueryResult`, `QueryCalls`, `BatchCalls` and
    `Responses`, and the lemmas about them.

The remote services are inputs. `GetContext` also returns the requests it
sends, in order (`Embed`, `Query`, `Rerank`). This makes it possible to state
which calls are made, for example that the reranker is never called for a
query without hits.

Scores and distances are `real`; the code only copies and compares them.

The search uses the `cosine_distance` metric, and the hit's `dist` is stored
unchanged under `cosine_similarity_score`. Despite its name, that field holds a
distance, not a similarity. The model copies `dist` as the code does.

## Model

| member | source | states |
|---|---|---|
| `Retrieve.GetContext` | routers/retrieve.py:31-78 | one inner list per query, entry `i` equal to the result for `queries[i]`; the requests sent are exactly `BatchCalls`: the calls of each query, in query order |
| `Retrieve.RetrieveForQuery` | routers/retrieve.py:35-74 | one loop iteration: the inner list is `QueryResult` for the query, and the requests sent are embed, search, and rerank only when the search found hits |
| `Retrieve.JoinReranked` | routers/retrieve.py:53-62 | one `Retrieval` per rerank result, in rerank order; text and reranker score from the result; embedding, vector id, file id and cosine score from `vectors[result.index]` |
| `Retrieve.NoHitsNoRerank` | routers/retrieve.py:48-51 | no hits: the query's result is `[]`, and only the embed and search requests are sent, never a rerank |
| `Retrieve.RerankRequestedIffHits` | routers/retrieve.py:48-52 | a rerank request is sent if and only if the search returned hits; its documents are the hits' `text` values in hit order, so document k is hit k |
| `Retrieve.QueryResultLength` | routers/retrieve.py:53-74 | a query with hits emits exactly as many objects as the reranker returned results |
| `Retrieve.QueryResultOrdered` | routers/retrieve.py:65-74 | reranker scores never increase along an emitted list |
| `Retrieve.RankedChunksStablePermutation` | routers/retrieve.py:65 | the sorted chunks are a permutation of the joined chunks; chunks with equal scores keep the reranker's order |
| `Retrieve.QueryResultProvenance` | routers/retrieve.py:54-74 | every emitted object comes from some rerank result and the hit at that result's index |
| `Retrieve.QueryResultCoversRerank` | routers/retrieve.py:54-74 | every rerank result of a query with hits is emitted by some object |
| `Retrieve.QueryResultIdsDistinct` | routers/retrieve.py:54-74 | when the hits have distinct ids and no rerank index repeats, no vector id appears twice in a query's emitted list |
| `Retrieve.EmittedDictionary` | routers/retrieve.py:68-74 | an emitted object serialises to exactly the keys text, vectorID, fileID, cosine_similarity_score and reranker_score, without embedding; each key holds the chunk's value |
| `Retrieve.ProjectForgetsOnlyEmbedding` | routers/retrieve.py:68-74 | two chunks are emitted identically if and only if they differ at most in their embedding |
| `Retrieve.ResponsesAligned` | routers/retrieve.py:32-74 | the response has one entry per query, and entry k is the result for `queries[k]` |
| `Retrieve.BatchNeverReranksEmpty` | routers/retrieve.py:48-52 | across a batch, no rerank request ever has an empty document list |
| `Retrieve.EmptyNamespace` | routers/retrieve.py:35-51 | when no query has hits: every entry of the response is `[]`, only 2 requests are sent per query, and none of them is a rerank |
| `StableSort.SortByKeyDescSortedPermutation` | routers/retrieve.py:65 | the sort keeps the length, is a permutation, and orders by key, largest first |
| `StableSort.SortByKeyDescStable` | routers/retrieve.py:65 | for every key value, the elements with that key keep their input order |
| `StableSort.StableSortUnique` | routers/retrieve.py:65 | two lists ordered by key, largest first, that agree at every key value are equal |
| `StableSort.StableSortIsSortByKeyDesc` | routers/retrieve.py:65 | any ordered list that agrees with the input at every key value is the model's sort of it |

## Left out

- The OpenAI, turbopuffer and Cohere clients (routers/retrieve.py:11-14, 28, 33, 40-45, 52). These are foreign network calls. Each one is a total function in `Services`, and the model passes it the request the code builds. The namespace handle `tpuf.Namespace(namespace)` becomes the namespace argument of the search function.
- Errors raised by those services, and the tenacity retry on the embedding call (randomised exponential backoff, 6 attempts, no retry on `BadRequestError`, line 26). The services are modelled as always answering. A raised exception would abort the whole request; that path is not modelled.
- The FastAPI router, `Form` decoding, `async` and HTTP transport (lines 3, 12, 30-31). This is I/O plumbing.
- API keys read from the environment and the `print` of the response after each normal iteration (lines 13-14, 76). These do not affect the result.
- Floating point. Scores and distances are `real`. NaN and float rounding are not modelled. The code only copies and compares these values.
- Retrieve.GetContext: requires every rerank `index` to be a valid non-negative position in the hits (`Admissible`). In Python, an out-of-range index raises `IndexError`, and a negative index counts back from the end of the list. Neither case is modelled.
- A missing `text` or `fileID` attribute on a hit would raise `KeyError`. The model makes these two attributes fields of `Hit`.
- CPython's Timsort is replaced by an insertion sort. `StableSort.StableSortUnique` shows that every stable descending sort gives the same result.
- The loop body is a separate method, `RetrieveForQuery`. The code's `continue` on an empty `docs` becomes an early `return` there. The code's dictionaries are the `ChunkObject` record, and `AsDict` gives their JSON keys.
- Bounds such as "at most 10 chunks per query" depend on the services honouring `top_k` and `top_n`. The code does not enforce them, so the model does not state them. It states instead that the count equals the number of rerank results.
- `Services` holds pure functions, so it cannot express a service that answers the same request differently on two calls. As a result, two equal queries in one batch always get equal entries in the model. This follows from the abstraction, not from `get_context`.
- The code does not check that hit ids or rerank indices are unique; it relies on the services for that. `Retrieve.QueryResultIdsDistinct` therefore takes uniqueness of both as preconditions.
