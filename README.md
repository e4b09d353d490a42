# LlamaIndexTS core, modelled in Dafny

This project models five pieces of the LlamaIndexTS library and proves what
they promise.

- **Workflow template** (`WorkflowTemplate`). A registry of step functions,
  each recorded with the event classes that trigger it and the classes it
  emits. `run` wraps a start payload in a `StartEvent` and hands a context
  class a snapshot of the registry. `generate` picks a context argument and
  checks that it subclasses `Context`.
- **Workflow events.** Payloads tagged with the name of the class that built
  them. `StartEvent` carries `{input}` and `StopEvent` carries `{result}`.
- **In-memory vector store** (`SimpleVectorStore`). Two dictionaries: text id
  to embedding, and text id to source document. `add` and `delete` update
  them in place. `query` selects the candidate ids and dispatches on the
  query mode. The default mode ranks with `getTopKEmbeddings`: a length
  check, a cutoff filter, a descending sort and the first `k`.
- **Qdrant vector store** (`QdrantVectorStore`). Nodes become points that
  are uploaded in batches. A query becomes one search request, with a filter
  built from the query, and the answer is read back. The Qdrant client is
  modelled as the log of requests the store sends (`calls`), and its answers
  are parameters.
- **Helpers.** `isAsyncGenerator` and `isGenerator`, `prettifyError`, and
  `toQueryBundle`.

Files, one module each:

| file | module |
|---|---|
| `common.dfy` | `Common`: Option, Result, the "one or many" argument |
| `events.dfy` | `Events` |
| `workflow.dfy` | `Workflow`, with the class `WorkflowTemplate` |
| `utils.dfy` | `Utils` |
| `nodes.dfy` | `Nodes`: nodes, embeddings, queries |
| `top_k.dfy` | `TopK`: `similarity` and `getTopKEmbeddings` |
| `simple_store.dfy` | `SimpleStore`, with the class `SimpleVectorStore` |
| `qdrant.dfy` | `Qdrant`, with the class `QdrantVectorStore` |

The store classes keep their state in fields that their methods update. The
loops of the source are `while` loops proved against specification
functions: `AddEmbeddings`, `AddRefs`, `DeleteRef`, `Kept`, `PointsFrom`,
`Chunks` and `QueryFilter`. The properties are proved about those functions.

Source paths below are relative to the repository root.

## Model

| member | source | states |
|---|---|---|
| Common.AsList | packages/core/src/workflow/workflow.ts:73 | A single item becomes a one-element list; an array is kept as it is. |
| Workflow.StepEntry | packages/core/src/workflow/workflow.ts:73-79 | The inputs are the event types as a list. Outputs are undefined exactly when none are given, and otherwise the given outputs as a list. |
| Workflow.StartEventOf | packages/core/src/workflow/workflow.ts:98-99 | An argument that is `instanceof StartEvent`, including an event of a user subclass, is used itself. Any other value is wrapped as `StartEvent({input})`. The result is always `instanceof StartEvent`. |
| Workflow.WorkflowTemplate.constructor | packages/core/src/workflow/workflow.ts:26-31 | The registry starts empty. `verbose` is `params.verbose`, else `Settings.debug`, else false. `timeout` is `params.timeout`, else null. |
| Workflow.WorkflowTemplate.AddStep | packages/core/src/workflow/workflow.ts:66-80 | The registry becomes the old one with this method's entry set, overwriting any earlier entry. Verbose and timeout are unchanged. |
| Workflow.WorkflowTemplate.HasStep | packages/core/src/workflow/workflow.ts:82-84 | True exactly when the method is registered. |
| Workflow.WorkflowTemplate.Run | packages/core/src/workflow/workflow.ts:97-109 | The context class is the given one, else `Context`. The start event is the argument when it is `instanceof StartEvent` (subclasses included). Otherwise it is a plain `StartEvent` tagged "StartEvent" that carries `{input}`. The context gets the registry, timeout and verbose. |
| Workflow.AddStepRegisters | packages/core/src/workflow/workflow.ts:79-84 | After adding `m`, `m` is registered with its new entry. Every other method's membership and entry are unchanged. |
| Workflow.ReRegisterOverwrites | packages/core/src/workflow/workflow.ts:79 | Registering a method twice leaves the registry size unchanged. The result equals registering only the second entry, which wins. |
| Workflow.SnapshotIsolation | packages/core/src/workflow/workflow.ts:103-108 | A step added after `run` does not appear in the steps that run was handed, but it is in the template. |
| Workflow.GenerateContext | packages/core/src/workflow/workflow.ts:52-55 | With one argument the context is that argument; with three or more it is the third. It succeeds exactly when the context extends `Context`. With zero or two arguments it fails with a TypeError. |
| Workflow.GenerateNeedsSubclass | packages/core/src/workflow/workflow.ts:52-55 | Any constructor that does not extend `Context`, `Context` itself included, in the position `generate` reads is rejected with the subclass error, not a TypeError. |
| Events.NewEvent | packages/core/src/workflow/events.ts:5-12 | The event stores the class and the data unchanged. `displayName` and `toString()` are the class's name. |
| Events.NewStartEvent | packages/core/src/workflow/events.ts:15 | A start event carries `{input}`, and its string form is "StartEvent". |
| Events.NewStopEvent | packages/core/src/workflow/events.ts:16 | A stop event carries `{result}`, and its string form is "StopEvent". |
| Events.NewEventConstructed | packages/core/src/workflow/events.ts:5-7 | Data of the shape the class demands gives a well-formed event, and the data is stored unchanged. |
| Events.BuiltinTagsDistinct | packages/core/src/workflow/events.ts:7 | For the three library classes, tags are equal if and only if the classes are equal. |
| Events.StartSubclassEvent | packages/core/src/workflow/events.ts:5-15 | An event of a user subclass of `StartEvent` is `instanceof StartEvent`, carries `{input}`, and its tag and string form are the subclass's own name. |
| Events.StartStopExclusive | packages/core/src/workflow/events.ts:15-16 | No event class is both `instanceof StartEvent` and `instanceof StopEvent`. |
| Events.StartStopShapes | packages/core/src/workflow/events.ts:15-16 | Start events carry `{input}` and stop events carry `{result}`. Their tags differ. |
| Utils.IsAsyncGenerator | packages/core/src/internal/utils.ts:4-6 | True exactly for an object (not null, not a function) that has `Symbol.asyncIterator`. |
| Utils.IsGenerator | packages/core/src/internal/utils.ts:8-10 | True exactly for an object (not null, not a function) that has `Symbol.iterator`. |
| Utils.GeneratorTestsRejectNonObjects | packages/core/src/internal/utils.ts:4-10 | Both tests are false for null, undefined, primitives and functions. |
| Utils.IsGeneratorAcceptsIterables | packages/core/src/internal/utils.ts:8-10 | Any object with `Symbol.iterator` passes `isGenerator`. It passes `isAsyncGenerator` only if it also has `Symbol.asyncIterator`. |
| Utils.PrettifyError | packages/core/src/internal/utils.ts:15-21 | A non-Error is returned as its string form. An Error gives a string that starts with `Error(` and has the combined length of prefix, name, separator and message. |
| Utils.ParsePrettified | packages/core/src/internal/utils.ts:17 | Whatever it reads back is a name and message that reassemble into the input as `Error(<name>): <message>`. |
| Utils.PrettifyErrorReadsBack | packages/core/src/internal/utils.ts:17 | For an error name without `)`, the name and message are read back exactly. |
| Utils.ToQueryBundle | packages/core/src/internal/utils.ts:23-30 | A string or an array of parts becomes `{query}` with no other fields. A bundle is returned unchanged. |
| Utils.ToQueryBundleIdempotent | packages/core/src/internal/utils.ts:26-29 | Normalising a normalised query changes nothing. |
| Nodes.NodeIds | packages/core/src/storage/vectorStore/SimpleVectorStore.ts:263 | The ids of the nodes, one per node, in input order. |
| TopK.Similarity | packages/core/src/storage/vectorStore/SimpleVectorStore.ts:32-75 | Succeeds exactly when the query embedding is present, the two lengths agree and the mode is known. An absent query and a length mismatch each throw their own error. On success the result is the score for that mode. |
| TopK.GetTopKEmbeddingsLearner | packages/core/src/storage/vectorStore/SimpleVectorStore.ts:130-140 | Always throws "Not implemented yet". |
| TopK.KeptMembers | packages/core/src/storage/vectorStore/SimpleVectorStore.ts:106-111 | A pair is kept if and only if it is some input's cosine score with that input's id, and the score is strictly above the cutoff (any score when there is no cutoff). |
| TopK.KeptWithoutCutoff | packages/core/src/storage/vectorStore/SimpleVectorStore.ts:106-111 | With no cutoff, every input is kept, in input order, each with its own score and id. |
| TopK.SortDesc | packages/core/src/storage/vectorStore/SimpleVectorStore.ts:113 | The result is in non-increasing score order and is a permutation of the input. |
| TopK.TakeCount | packages/core/src/storage/vectorStore/SimpleVectorStore.ts:118-121 | The number collected is 0 when `topK <= 0`, and otherwise `min(topK, n)`. It is never more than `n`. |
| TopK.SortedPrefixIsTopK | packages/core/src/storage/vectorStore/SimpleVectorStore.ts:113-124 | The first `TakeCount` elements of the sorted list are a top-k selection. That means: that many results, sorted, drawn from the kept pairs, and none left out scoring higher than any returned. |
| TopK.ScoreAboveCutoff | packages/core/src/storage/vectorStore/SimpleVectorStore.ts:104-111 | Succeeds exactly when every embedding can be compared with the query. The error is the absent query or the length mismatch. On success the result is the kept pairs. |
| TopK.TakeFirst | packages/core/src/storage/vectorStore/SimpleVectorStore.ts:115-124 | The two result lists have equal length and hold the first `TakeCount` sorted pairs, each id with its own score. |
| TopK.GetTopKEmbeddings | packages/core/src/storage/vectorStore/SimpleVectorStore.ts:87-127 | It throws the ids-length error exactly when the lengths differ. Otherwise it succeeds exactly when the embeddings are comparable with the query. On success the pairs are the sorted kept pairs cut at `TakeCount`, and they form a top-k selection. `topK` defaults to 2. |
| SimpleStore.AddEmbeddingsLaterWins | packages/core/src/storage/vectorStore/SimpleVectorStore.ts:249-250 | After `add`, a node's id maps to its embedding unless a later node has the same id. |
| SimpleStore.AddEmbeddingsOthersUnchanged | packages/core/src/storage/vectorStore/SimpleVectorStore.ts:249-250 | Ids not among the added nodes keep their membership and embedding. |
| SimpleStore.AddRefsLaterWins | packages/core/src/storage/vectorStore/SimpleVectorStore.ts:252-256 | A node with a source node maps its id to that document, unless a later node with the same id and a source node overrides it. |
| SimpleStore.AddRefsUntouched | packages/core/src/storage/vectorStore/SimpleVectorStore.ts:252-256 | Ids that arrive only on nodes without a source node keep their document mapping, or stay without one. |
| SimpleStore.DeleteRemovesExactly | packages/core/src/storage/vectorStore/SimpleVectorStore.ts:266-275 | Afterwards no text id maps to the document. Ids mapped to it are gone from both dictionaries. Other entries are unchanged, including embeddings with no document mapping. |
| SimpleStore.FilterIds | packages/core/src/storage/vectorStore/SimpleVectorStore.ts:288-290 | An id is kept if and only if it is listed and allowed, and no id repeats. |
| SimpleStore.TopKRanksCandidates | packages/core/src/storage/vectorStore/SimpleVectorStore.ts:318-324 | A top-k selection over the candidates, each scored once, returns `TakeCount` distinct candidate ids. Each comes with its own cosine score, in non-increasing order, and no candidate left out scores higher than any returned. |
| SimpleStore.ComparableIffCandidatesComparable | packages/core/src/storage/vectorStore/SimpleVectorStore.ts:284-296 | The listed embeddings pass the length check exactly when every candidate's stored embedding has the query's length, with a query present whenever there is a candidate. |
| SimpleStore.SimpleVectorStore.constructor | packages/core/src/storage/vectorStore/SimpleVectorStore.ts:227-230 | The store holds the given dictionaries, or two empty ones. |
| SimpleStore.SimpleVectorStore.FromDict | packages/core/src/storage/vectorStore/SimpleVectorStore.ts:378-383 | The store holds both given dictionaries. |
| SimpleStore.SimpleVectorStore.ToDict | packages/core/src/storage/vectorStore/SimpleVectorStore.ts:385-390 | Returns both dictionaries as stored. |
| SimpleStore.SimpleVectorStore.Get | packages/core/src/storage/vectorStore/SimpleVectorStore.ts:244-246 | Present exactly when the id is stored, and then it is the stored embedding. |
| SimpleStore.SimpleVectorStore.Add | packages/core/src/storage/vectorStore/SimpleVectorStore.ts:248-264 | The dictionaries become the specification functions applied to the old state. The result is the ids in input order. |
| SimpleStore.SimpleVectorStore.Delete | packages/core/src/storage/vectorStore/SimpleVectorStore.ts:266-275 | The new state is `DeleteRef` of the old state. |
| SimpleStore.SimpleVectorStore.StoredIds | packages/core/src/storage/vectorStore/SimpleVectorStore.ts:284 | Every stored id appears exactly once. |
| SimpleStore.SimpleVectorStore.Query | packages/core/src/storage/vectorStore/SimpleVectorStore.ts:277-333 | Filters throw first. Learner modes throw "Not implemented yet" and an unknown mode throws "Invalid query mode". The default and MMR modes both succeed exactly when every candidate's embedding is comparable with the query (each candidate goes through `similarity`). When they fail, the error is the absent query or the length mismatch. On success the default mode ranks the candidates (see `TopKRanksCandidates`). MMR returns what `mmr` gives for the candidates, each listed once with its stored embedding, under the threshold of the call as written, which is 0.5 (see `MmrThresholdIgnored`). With `docIds`, the candidates are the stored ids listed there. |
| SimpleStore.MmrRankedCandidates | packages/core/src/storage/vectorStore/SimpleVectorStore.ts:284-317 | Handing the listed candidate ids and their stored embeddings to `mmr` with the as-written threshold is an MMR answer for the candidates. |
| SimpleStore.MmrThreshold | packages/core/src/storage/vectorStore/SimpleVectorStore.ts:150-152 | A present non-zero `mmrThreshold` is used; an absent or zero one falls back to 0.5. |
| SimpleStore.MmrCallAsWritten | packages/core/src/storage/vectorStore/SimpleVectorStore.ts:310-317 | As written, the query's threshold fills the sixth parameter, `_similarityCutoff`, and `mmrThreshold` is left undefined. |
| SimpleStore.MmrCallIntended | packages/core/src/storage/vectorStore/SimpleVectorStore.ts:150 | Corrected call: the query's threshold is the `mmrThreshold` argument. |
| SimpleStore.MmrThresholdIgnored | packages/core/src/storage/vectorStore/SimpleVectorStore.ts:149-152 | As written, every MMR query ranks with threshold 0.5. |
| SimpleStore.MmrThresholdIgnoredExample | packages/core/src/storage/vectorStore/SimpleVectorStore.ts:310-317 | A query asking for threshold 0.9 is ranked with a different threshold. |
| SimpleStore.MmrThresholdHonoured | packages/core/src/storage/vectorStore/SimpleVectorStore.ts:150-152 | With the corrected call, a non-zero threshold of the query is the one used. |
| SimpleStore.FromDictToDict | packages/core/src/storage/vectorStore/SimpleVectorStore.ts:378-390 | `toDict(fromDict(d))` gives back `d`. |
| Qdrant.QdrantVectorStore.constructor | packages/llamaindex/src/storage/vectorStore/QdrantVectorStore.ts:54-65 | `collectionName` defaults to "default" and `batchSize` to 100. Given values, including 0 or "", are kept. The store starts uninitialised with no requests sent. |
| Qdrant.QdrantVectorStore.InitializeCollection | packages/llamaindex/src/storage/vectorStore/QdrantVectorStore.ts:90-109 | Sends a lookup, then a create request with cosine distance only if the lookup fails. Marks the collection initialised. |
| Qdrant.QdrantVectorStore.BuildPoints | packages/llamaindex/src/storage/vectorStore/QdrantVectorStore.ts:116-157 | The points are those of the loops as written (`PointsFrom`). The ids are the points' ids, with the same length and order. |
| Qdrant.QdrantVectorStore.CollectBatch | packages/llamaindex/src/storage/vectorStore/QdrantVectorStore.ts:124-138 | Collects at most `batchSize` nodes from `start`, each with its own vector and payload, and returns where the shared index stops. |
| Qdrant.BatchPoints | packages/llamaindex/src/storage/vectorStore/QdrantVectorStore.ts:140-148 | One point per collected node, in order. |
| Qdrant.SingleBatchBuildsAll | packages/llamaindex/src/storage/vectorStore/QdrantVectorStore.ts:123-150 | When `0 < nodes.length <= batchSize`, every node becomes one point, in order. |
| Qdrant.NonPositiveBatchBuildsNothing | packages/llamaindex/src/storage/vectorStore/QdrantVectorStore.ts:128 | When `batchSize <= 0`, no node becomes a point. |
| Qdrant.BuildPointsKeepsExactly | packages/llamaindex/src/storage/vectorStore/QdrantVectorStore.ts:123-151 | With `batchSize > 0`, exactly the nodes at positions `k` with `k % (batchSize + 1) != batchSize` become points, in order. |
| Qdrant.BuildPointsDropsSecondNode | packages/llamaindex/src/storage/vectorStore/QdrantVectorStore.ts:123-128 | With batch size 1 and two nodes, only the first becomes a point. |
| Qdrant.BuildPointsIntended | packages/llamaindex/src/storage/vectorStore/QdrantVectorStore.ts:116-157 | Corrected builder: one point per node, in order, with its id, embedding and payload. The ids are the nodes' ids. |
| Qdrant.QdrantVectorStore.Add | packages/llamaindex/src/storage/vectorStore/QdrantVectorStore.ts:164-185 | Initialises the collection only when the input is non-empty and it is not yet initialised, using the first node's embedding length. Then it upserts the built points chunk by chunk and returns the built ids. Size and name are unchanged. |
| Qdrant.QdrantVectorStore.UploadInBatches | packages/llamaindex/src/storage/vectorStore/QdrantVectorStore.ts:173-182 | Sends one upsert per chunk `points.slice(i, i + batchSize)`, in order. |
| Qdrant.ChunksCover | packages/llamaindex/src/storage/vectorStore/QdrantVectorStore.ts:179-182 | The chunks, concatenated, are exactly the points. Each chunk holds between 1 and `batchSize` points. |
| Qdrant.AddUploadsBuiltPoints | packages/llamaindex/src/storage/vectorStore/QdrantVectorStore.ts:171-182 | For any batch size, what `add` uploads, concatenated, is exactly the list of points built. |
| Qdrant.QdrantVectorStore.Delete | packages/llamaindex/src/storage/vectorStore/QdrantVectorStore.ts:191-206 | Sends one delete request whose filter requires `doc_id` to equal `refDocId`. |
| Qdrant.QdrantVectorStore.ParseToQueryResult | packages/llamaindex/src/storage/vectorStore/QdrantVectorStore.ts:213-236 | Ids, scores and nodes have the response's length. The k-th id and score are the k-th hit's, and the k-th node is built from the k-th payload. |
| Qdrant.QueryFilter | packages/llamaindex/src/storage/vectorStore/QdrantVectorStore.ts:273-311 | No filter if and only if there are no doc ids, no truthy query string and no filters. Otherwise: the doc-id `any` condition when ids are given, then one `value` condition per metadata filter, in order. |
| Qdrant.QdrantVectorStore.BuildQueryFilter | packages/llamaindex/src/storage/vectorStore/QdrantVectorStore.ts:273-311 | The loop builds exactly `QueryFilter(query)`. |
| Qdrant.QueryStringAloneGivesEmptyFilter | packages/llamaindex/src/storage/vectorStore/QdrantVectorStore.ts:274-293 | A query string with no doc ids and no filters gives a filter with no conditions, not an absent filter. |
| Qdrant.QdrantVectorStore.Query | packages/llamaindex/src/storage/vectorStore/QdrantVectorStore.ts:244-271 | With no query embedding, it throws and sends nothing. Otherwise it sends one search with the embedding, `similarityTopK` and a filter, then reads the hits back. The filter is the caller's Qdrant filter if given, else the built one. |

## Left out

- The workflow's run loop lives in `./context`, which is not part of this model. So does the `Context` class; `run` is modelled up to the parameters handed to it.
- Prototype patching in `generate` (workflow.ts:57-63) is not modelled. It is runtime reflection. Only the argument choice and the subclass check are modelled.
- `Settings.debug` (in `../global`) is a parameter of the constructor.
- `Workflow.SnapshotIsolation`: isolation covers later `addStep` calls only. `new Map(this.#steps)` (workflow.ts:105) copies the map but shares its entry objects. When arrays are passed, `inputs` and `outputs` are the caller's own arrays (lines 73, 75-76). So a caller that mutates such an array after `run` also changes the steps the run was handed. The model's entries are values and does not capture this aliasing.
- `Workflow.GenerateContext`: the subclass test is modelled on a list of ancestor class names.
- Event data records are modelled by their shape (`{input}`, `{result}`, or a string-keyed record), not their fields' types.
- Numeric similarity formulas (cosine, dot product, Euclidean) are not modelled. They are floating point, so the score is a parameter function `score(mode, a, b)`. Only the length check and the mode dispatch of `similarity` are modelled.
- The ranking arithmetic of `getTopKMMREmbeddings` (lines 174-205) is not modelled. It is floating point, so it is a parameter of `Query`. The model keeps two parts of it: the threshold it settles on, and its first loop, which sends every candidate through `similarity`. So for real-valued scores it throws when the default mode does.
- The default-id path of `getTopKEmbeddings` (`Array(n).map`, line 95) is not modelled. The store always passes ids, so ids are a required argument.
- `DEFAULT_SIMILARITY_TOP_K` lives in `../../constants`, which is not part of this model. Its value 2 comes from the doc comment at SimpleVectorStore.ts:81.
- `TopK.SortDesc`: the model is a stable insertion sort. The proofs state order and permutation but not stability, so ties among equal scores are not pinned down.
- `SimpleStore.SimpleVectorStore.StoredIds`: `Object.entries` order is not modelled. The ids come in an unspecified order, so the order among equal scores in a query result is left open.
- `SimpleStore.SimpleVectorStore.Query`: the ranking contract is stated for the default mode. For MMR it states when the query succeeds and which error it throws, but not the order of the result, which the MMR parameter computes.
- `SimpleStore.SimpleVectorStore.Query`: scores are reals and can never be NaN. In the source, a query `[0, 0]` against a stored `[1, 2]` gives a cosine of 0/0 = NaN (SimpleVectorStore.ts:67-69). Then `NaN * threshold > score` (line 168) is never true and `highScoreId` stays null. MMR's second loop then calls `similarity` on `undefined` (lines 185-188), which throws a TypeError at line 37. In the same case the default mode returns the id with a NaN score. The model gives `Ok` in both modes. With NaN scores the cutoff test and the sort order are also left unspecified.
- `SimpleStore.SimpleVectorStore.Query` uses the MMR call as written (threshold always 0.5), as the source does. The corrected call is separate (see Findings).
- `SimpleStore.SimpleVectorStore.Get`: the dictionaries are plain JavaScript objects, and the model treats them as maps of own keys. So `get("constructor")` or another inherited name returns an inherited member in the source but `None` in the model. Likewise an id `"__proto__"` is not stored as an own key by `add`, so `Object.entries` in `query` skips it; the model stores it like any other id.
- `SimpleStore.SimpleVectorStore.FromDict`: `fromDict` and `toDict` share the dictionary objects by reference, so a later `add` or `delete` also changes a dictionary handed out earlier. The model copies values and does not capture this aliasing.
- `Utils.PrettifyError`: `${error}` throws a TypeError for a Symbol or for an object without a prototype. The model gives every non-Error value a string form, so this throw is not modelled.
- `TopK.GetTopKEmbeddings`: `similarityTopK` is a JavaScript number. A fraction such as 2.5 collects 3 results (the loop runs while `i < 2.5`), and only `undefined` takes the default, not `null`. The model's `topK` is an `int` and its absence is `None`, so neither case is modelled.
- `Qdrant.QdrantVectorStore.Add`: `add` is asynchronous. Two overlapping calls can both see `collectionInitialized` false before either sets it, and both initialise the collection. The model runs calls one after the other.
- Persistence is not modelled (`persist`, `fromPersistDir`, `fromPersistPath`, and the `persistPath` branch of `add`). It is file-system I/O and JSON.
- The `client` getter of `SimpleVectorStore` and `QdrantVectorStore.client()` are not modelled. They only return a handle.
- The Qdrant client is modelled as a log of requests. Its answers are parameters, and its failures other than the collection lookup are not modelled. The `client` option and the URL/API-key construction are not modelled.
- `nodeToMetadata` and `metadataDictToNode` (in `./utils.js`, not part of this model) are parameter functions.
- `Qdrant.QdrantVectorStore.Add` uses the as-written `buildPoints`, as the source does. The corrected builder is separate (see Findings).
- `Qdrant.QdrantVectorStore.UploadInBatches` requires a positive batch size when there are points: for `batchSize <= 0` the source's loop never ends. `Add` always meets this, because the as-written `buildPoints` emits no points for such sizes.
- A `batchSize` that is not an integer (JavaScript numbers are floats) is not modelled; the batch size is an `int`.
- The `embedModel` option of `QdrantVectorStore` is not modelled. It only goes to the base class.

## Findings

| source | as written | input that shows it | evidently intended | confidence | as-written member | corrected member |
|---|---|---|---|---|---|---|
| packages/core/src/storage/vectorStore/SimpleVectorStore.ts:310-317 | `query` passes six arguments (`queryEmbedding, embeddings, null, similarityTopK, nodeIds, mmrThreshold`). The query's threshold lands in the sixth parameter, `_similarityCutoff` (line 149), which is never read. The `mmrThreshold` parameter (line 150) stays undefined, so line 152 always picks 0.5. | A query with `mode: MMR, mmrThreshold: 0.9` is ranked with threshold 0.5. | The query's `mmrThreshold` is the threshold used. | not executed | SimpleStore.MmrCallAsWritten (with SimpleStore.MmrThresholdIgnored and SimpleStore.MmrThresholdIgnoredExample) | SimpleStore.MmrCallIntended (with SimpleStore.MmrThresholdHonoured) |
| packages/llamaindex/src/storage/vectorStore/QdrantVectorStore.ts:123-128 | The inner loop advances the shared `i` past the batch, and then the outer loop's `i++` skips one more node. The node right after each full batch never becomes a point, and its id is not returned. | `batchSize = 1` with two nodes gives one point, for the first node only. | Every node becomes exactly one point, in order. | not executed | Qdrant.QdrantVectorStore.BuildPoints (with Qdrant.BuildPointsDropsSecondNode and Qdrant.BuildPointsKeepsExactly) | Qdrant.BuildPointsIntended |
