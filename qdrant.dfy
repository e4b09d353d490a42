/** The Qdrant-backed vector store: nodes become points (id, payload,
    vector) uploaded in batches; queries become a search request whose
    filter is built from the query, and whose answer is read back into a
    query result. The Qdrant client is modelled by the log of requests the
    store sends to it, and its answers are parameters. */
module Qdrant {
  import opened Common
  import opened Nodes

  /** `PointStruct` */
  datatype PointStruct = PointStruct(id: string, payload: Payload, vector: Embedding)

  /** The `match` part of a filter condition (`match` is a Dafny keyword). */
  datatype Match = MatchValue(value: string) | MatchAny(any: seq<string>)

  /** `{key, match}` */
  datatype Condition = Condition(key: string, matches: Match)

  /** `{must: [...]}` */
  datatype Filter = Filter(must: seq<Condition>)

  /** One hit of a search, as the client returns it. */
  datatype QuerySearchResult = QuerySearchResult(id: string, score: real, payload: Payload)

  /** `VectorStoreQueryResult` */
  datatype QueryResult = QueryResult(nodes: seq<BaseNode>, similarities: seq<real>, ids: seq<string>)

  /** A request sent to the Qdrant client. */
  datatype ClientCall =
    | GetCollection(name: string)
    | CreateCollection(name: string, size: int, distance: string)
    | Upsert(name: string, points: seq<PointStruct>)
    | Search(name: string, vector: Embedding, limit: Option<int>, filter: Option<Filter>)
    | DeleteWhere(name: string, selector: Filter)

  /** `new Error("No query embedding provided")` */
  datatype QueryError = NoQueryEmbedding

  const DefaultCollectionName: string := "default"
  const DefaultBatchSize: int := 100
  const DocIdKey: string := "doc_id"
  const CosineDistance: string := "Cosine"

  /** `nodeToMetadata` */
  type ToPayload = BaseNode -> Payload
  /** `metadataDictToNode` */
  type ToNode = Payload -> BaseNode

  /** The point built for one node. */
  function PointOf(node: BaseNode, toPayload: ToPayload): PointStruct {
    PointStruct(node.id, toPayload(node), node.embedding)
  }

  /** The points of a list of nodes, one each, in order. */
  function PointsOf(nodes: seq<BaseNode>, toPayload: ToPayload): (ps: seq<PointStruct>)
    ensures |ps| == |nodes|
    ensures forall k :: 0 <= k < |nodes| ==> ps[k] == PointOf(nodes[k], toPayload)
  {
    seq(|nodes|, k requires 0 <= k < |nodes| => PointOf(nodes[k], toPayload))
  }

  /** The ids of a list of points, in order. */
  function PointIds(points: seq<PointStruct>): (ids: seq<string>)
    ensures |ids| == |points|
    ensures forall k :: 0 <= k < |points| ==> ids[k] == points[k].id
  {
    seq(|points|, k requires 0 <= k < |points| => points[k].id)
  }

  /** Where the inner loop of `buildPoints` stops when it starts at `i`:
      after `b` nodes or at the end of the list; at once when `b <= 0`. */
  function BatchEnd(n: nat, b: int, i: nat): (end: nat)
    requires i <= n
    ensures i <= end <= n
  {
    if b <= 0 then i else Min(i + b, n)
  }

  /** The points `buildPoints` emits from outer position `i` on, as the
      loops are written: one batch, then the outer `i++` moves one place
      past where the inner loop stopped. */
  function PointsFrom(nodes: seq<BaseNode>, b: int, i: nat, toPayload: ToPayload): seq<PointStruct>
    decreases |nodes| - i
  {
    if i >= |nodes| then []
    else
      var end := BatchEnd(|nodes|, b, i);
      PointsOf(nodes[i..end], toPayload) + PointsFrom(nodes, b, end + 1, toPayload)
  }

  /** One turn of the outer loop of `buildPoints`: the points emitted from
      `i` on are this batch's, then those from one past its end. */
  lemma BuildPointsStep(nodes: seq<BaseNode>, b: int, i: nat, toPayload: ToPayload,
                        done: seq<PointStruct>, batchPoints: seq<PointStruct>, end: nat)
    requires i < |nodes| && end == BatchEnd(|nodes|, b, i)
    requires batchPoints == PointsOf(nodes[i..end], toPayload)
    ensures done + PointsFrom(nodes, b, i, toPayload) == (done + batchPoints) + PointsFrom(nodes, b, end + 1, toPayload)
  {
    var rest := PointsFrom(nodes, b, end + 1, toPayload);
    assert PointsFrom(nodes, b, i, toPayload) == batchPoints + rest;
    assert done + (batchPoints + rest) == (done + batchPoints) + rest;
  }

  /** The ids of the points built so far and of the next batch. */
  lemma PointIdsAppend(points: seq<PointStruct>, batch: seq<BaseNode>, toPayload: ToPayload)
    ensures PointIds(points + PointsOf(batch, toPayload)) == PointIds(points) + NodeIds(batch)
  {
  }

  /** Reference definition of what survives: the nodes, from position
      `from` on, whose position is not the last of a block of `b + 1`. */
  function KeptAt(nodes: seq<BaseNode>, b: int, from: nat): seq<BaseNode>
    requires b > 0
    decreases |nodes| - from
  {
    if from >= |nodes| then []
    else (if from % (b + 1) != b then [nodes[from]] else []) + KeptAt(nodes, b, from + 1)
  }

  /** With a batch size of zero or less no node becomes a point. */
  lemma {:induction false} NonPositiveBatchBuildsNothing(nodes: seq<BaseNode>, b: int, i: nat, toPayload: ToPayload)
    requires b <= 0
    ensures PointsFrom(nodes, b, i, toPayload) == []
    decreases |nodes| - i
  {
    if i < |nodes| {
      NonPositiveBatchBuildsNothing(nodes, b, i + 1, toPayload);
    }
  }

  /** When all nodes fit in one batch, every node becomes a point, in order. */
  lemma SingleBatchBuildsAll(nodes: seq<BaseNode>, b: int, toPayload: ToPayload)
    requires 0 < |nodes| <= b
    ensures PointsFrom(nodes, b, 0, toPayload) == PointsOf(nodes, toPayload)
  {
    assert BatchEnd(|nodes|, b, 0) == |nodes|;
    assert nodes[0..|nodes|] == nodes;
  }

  /** Euclidean division is determined by any quotient and remainder that
      fit. */
  lemma DivModUnique(x: int, d: int, q: int, r: int)
    requires d > 0 && x == q * d + r && 0 <= r < d
    ensures x % d == r && x / d == q
  {
    var q' := x / d;
    var r' := x % d;
    assert (q' - q) * d == r - r';
    MultipleAwayFromZero(q' - q, d);
  }

  /** A non-zero multiple of `d` is at least `d` away from zero. */
  lemma MultipleAwayFromZero(k: int, d: int)
    requires d > 0
    ensures k > 0 ==> k * d >= d
    ensures k < 0 ==> k * d <= -d
  {
  }

  /** Inside one block of `b + 1` positions the remainder is the offset from
      the block's start, and the next block starts right after it. */
  lemma BlockOffset(i: nat, t: nat, b: int)
    requires b > 0 && i % (b + 1) == 0 && t <= b
    ensures (i + t) % (b + 1) == t
    ensures (i + b + 1) % (b + 1) == 0
  {
    var d := b + 1;
    var m := i / d;
    assert i == m * d + i % d;
    DivModUnique(i + t, d, m, t);
    assert i + b + 1 == (m + 1) * d;
    DivModUnique(i + b + 1, d, m + 1, 0);
  }

  /** The nodes at positions `i..m` of one block are all kept. */
  lemma {:induction false} KeptBlockPrefix(nodes: seq<BaseNode>, b: int, i: nat, m: nat)
    requires b > 0 && i % (b + 1) == 0 && i <= m <= |nodes| && m - i <= b
    ensures KeptAt(nodes, b, i) == nodes[i..m] + KeptAt(nodes, b, m)
    decreases m - i
  {
    if m > i {
      KeptBlockPrefix(nodes, b, i, m - 1);
      BlockOffset(i, m - 1 - i, b);
      assert (m - 1) % (b + 1) != b;
      assert KeptAt(nodes, b, m - 1) == [nodes[m - 1]] + KeptAt(nodes, b, m);
      assert nodes[i..m] == nodes[i..m - 1] + [nodes[m - 1]];
      assert KeptAt(nodes, b, i) == nodes[i..m - 1] + ([nodes[m - 1]] + KeptAt(nodes, b, m));
    }
  }

  /** As written, `buildPoints` with a positive batch size emits exactly the
      nodes whose position `k` has `k % (batchSize + 1) != batchSize`: the
      node right after each full batch is dropped. */
  lemma {:induction false} BuildPointsKeepsExactly(nodes: seq<BaseNode>, b: int, i: nat, toPayload: ToPayload)
    requires b > 0 && i % (b + 1) == 0
    ensures PointsFrom(nodes, b, i, toPayload) == PointsOf(KeptAt(nodes, b, i), toPayload)
    decreases |nodes| - i
  {
    if i < |nodes| {
      var end := BatchEnd(|nodes|, b, i);
      KeptBlockPrefix(nodes, b, i, end);
      if end < |nodes| {
        BlockOffset(i, b, b);
        assert KeptAt(nodes, b, end) == KeptAt(nodes, b, end + 1);
        BuildPointsKeepsExactly(nodes, b, end + 1, toPayload);
      }
      PointsOfAppend(nodes[i..end], KeptAt(nodes, b, end), toPayload);
    }
  }

  lemma PointsOfAppend(xs: seq<BaseNode>, ys: seq<BaseNode>, toPayload: ToPayload)
    ensures PointsOf(xs + ys, toPayload) == PointsOf(xs, toPayload) + PointsOf(ys, toPayload)
  {
  }

  /** The smallest input that shows the loss: with a batch size of 1 and two
      nodes, only the first becomes a point. */
  lemma BuildPointsDropsSecondNode(first: BaseNode, second: BaseNode, toPayload: ToPayload)
    ensures PointsFrom([first, second], 1, 0, toPayload) == [PointOf(first, toPayload)]
  {
    assert [first, second][0..1] == [first];
  }

  /** The upload chunks of `add`: `points.slice(i, i + batchSize)` for
      `i = 0, batchSize, 2 * batchSize, …` while `i < points.length`. */
  function Chunks(points: seq<PointStruct>, b: int, i: nat): seq<seq<PointStruct>>
    decreases |points| - i
  {
    if b <= 0 || i >= |points| then [] else [points[i..Min(i + b, |points|)]] + Chunks(points, b, i + b)
  }

  function Flatten(chunks: seq<seq<PointStruct>>): seq<PointStruct> {
    if chunks == [] then [] else chunks[0] + Flatten(chunks[1..])
  }

  /** The chunks hold every point from `i` on, once and in order, and each
      holds between 1 and `b` points. */
  lemma {:induction false} ChunksCover(points: seq<PointStruct>, b: int, i: nat)
    requires b > 0 && i <= |points|
    ensures Flatten(Chunks(points, b, i)) == points[i..]
    ensures forall k :: 0 <= k < |Chunks(points, b, i)| ==> 0 < |Chunks(points, b, i)[k]| <= b
    decreases |points| - i
  {
    if i < |points| {
      var end := Min(i + b, |points|);
      var rest := Chunks(points, b, i + b);
      if i + b <= |points| {
        ChunksCover(points, b, i + b);
        assert points[i..] == points[i..end] + points[i + b..];
      } else {
        assert rest == [];
        assert points[i..] == points[i..end];
      }
      assert Chunks(points, b, i)[1..] == rest;
    }
  }

  /** The requests that upload a list of chunks. */
  function UpsertCalls(name: string, chunks: seq<seq<PointStruct>>): (cs: seq<ClientCall>)
    ensures |cs| == |chunks|
    ensures forall k :: 0 <= k < |chunks| ==> cs[k] == Upsert(name, chunks[k])
  {
    seq(|chunks|, k requires 0 <= k < |chunks| => Upsert(name, chunks[k]))
  }

  /** One step of the upload loop: the requests still to send are this
      chunk's, then the rest's. */
  lemma UploadStep(name: string, points: seq<PointStruct>, b: int, i: nat, done: seq<ClientCall>, chunk: seq<PointStruct>)
    requires b > 0 && i < |points| && chunk == points[i..Min(i + b, |points|)]
    ensures done + UpsertCalls(name, Chunks(points, b, i)) == (done + [Upsert(name, chunk)]) + UpsertCalls(name, Chunks(points, b, i + b))
  {
    assert Chunks(points, b, i) == [chunk] + Chunks(points, b, i + b);
    assert UpsertCalls(name, Chunks(points, b, i)) == [Upsert(name, chunk)] + UpsertCalls(name, Chunks(points, b, i + b));
  }

  /** The requests `initializeCollection` sends. */
  function InitializeCalls(name: string, vectorSize: int, collectionExists: bool): seq<ClientCall> {
    [GetCollection(name)] + (if collectionExists then [] else [CreateCollection(name, vectorSize, CosineDistance)])
  }

  /** A string is truthy when it is present and not empty. */
  predicate Truthy(s: Option<string>) {
    s.Some? && s.value != ""
  }

  /** The filter `buildQueryFilter` builds: none when there are no document
      ids, no query string and no metadata filters; otherwise the document
      id condition (if any ids are given) followed by one condition per
      metadata filter. */
  function QueryFilter(query: VectorStoreQuery): (f: Option<Filter>)
    ensures f.None? <==> query.docIds.None? && !Truthy(query.queryStr) && query.filters.None?
    ensures f.Some? ==> |f.value.must| == (if query.docIds.Some? then 1 else 0) + (if query.filters.Some? then |query.filters.value.filters| else 0)
    ensures f.Some? && query.docIds.Some? ==> f.value.must[0] == Condition(DocIdKey, MatchAny(query.docIds.value))
    ensures f.Some? && query.filters.Some? ==>
              var offset := if query.docIds.Some? then 1 else 0;
              forall k :: 0 <= k < |query.filters.value.filters| ==>
                f.value.must[offset + k] == Condition(query.filters.value.filters[k].key, MatchValue(query.filters.value.filters[k].value))
  {
    if query.docIds.None? && !Truthy(query.queryStr) && query.filters.None? then None
    else
      var docCondition := if query.docIds.Some? then [Condition(DocIdKey, MatchAny(query.docIds.value))] else [];
      var fs := if query.filters.Some? then query.filters.value.filters else [];
      Some(Filter(docCondition + FilterConditions(fs)))
  }

  /** One `{key, match: {value}}` condition per metadata filter, in order. */
  function FilterConditions(fs: seq<MetadataFilter>): (cs: seq<Condition>)
    ensures |cs| == |fs|
    ensures forall k :: 0 <= k < |fs| ==> cs[k] == Condition(fs[k].key, MatchValue(fs[k].value))
  {
    seq(|fs|, k requires 0 <= k < |fs| => Condition(fs[k].key, MatchValue(fs[k].value)))
  }

  /** The conditions of one more filter follow those of the ones before. */
  lemma FilterConditionsStep(fs: seq<MetadataFilter>, i: nat)
    requires i < |fs|
    ensures FilterConditions(fs[..i + 1]) == FilterConditions(fs[..i]) + [Condition(fs[i].key, MatchValue(fs[i].value))]
  {
  }

  /** A query string alone yields a filter with no conditions, which is not
      the same as no filter. */
  lemma QueryStringAloneGivesEmptyFilter(query: VectorStoreQuery)
    requires query.docIds.None? && query.filters.None? && Truthy(query.queryStr)
    ensures QueryFilter(query) == Some(Filter([]))
  {
  }

  /** `result` reads back `response` hit by hit: same ids, same scores, and
      the node each payload describes. */
  predicate ParsedFrom(result: QueryResult, response: seq<QuerySearchResult>, toNode: ToNode) {
    && |result.ids| == |response| && |result.similarities| == |response| && |result.nodes| == |response|
    && forall k :: 0 <= k < |response| ==>
         result.ids[k] == response[k].id && result.similarities[k] == response[k].score &&
         result.nodes[k] == toNode(response[k].payload)
  }

  class QdrantVectorStore {
    var batchSize: int
    var collectionName: string
    var collectionInitialized: bool
    /** The requests sent to the client so far. */
    var calls: seq<ClientCall>

    /** `collectionName ?? "default"`, `batchSize ?? 100`; a given `0` or
        empty name is kept. */
    constructor (batchSizeOption: Option<int>, collectionNameOption: Option<string>)
      ensures batchSize == if batchSizeOption.Some? then batchSizeOption.value else DefaultBatchSize
      ensures collectionName == if collectionNameOption.Some? then collectionNameOption.value else DefaultCollectionName
      ensures !collectionInitialized && calls == []
    {
      batchSize := batchSizeOption.GetOr(DefaultBatchSize);
      collectionName := collectionNameOption.GetOr(DefaultCollectionName);
      collectionInitialized := false;
      calls := [];
    }

    /** `initializeCollection`: asks for the collection and creates it with
        cosine distance when the request fails; `getCollectionSucceeds` is
        the client's answer. */
    method InitializeCollection(vectorSize: int, getCollectionSucceeds: bool)
      modifies this
      ensures calls == old(calls) + InitializeCalls(collectionName, vectorSize, getCollectionSucceeds)
      ensures collectionInitialized
      ensures batchSize == old(batchSize) && collectionName == old(collectionName)
    {
      calls := calls + [GetCollection(collectionName)];
      if !getCollectionSucceeds {
        calls := calls + [CreateCollection(collectionName, vectorSize, CosineDistance)];
      }
      collectionInitialized := true;
    }

    /** `buildPoints`, as written. */
    method BuildPoints(nodes: seq<BaseNode>, toPayload: ToPayload) returns (points: seq<PointStruct>, ids: seq<string>)
      ensures points == PointsFrom(nodes, batchSize, 0, toPayload)
      ensures ids == PointIds(points)
    {
      points := [];
      ids := [];
      ghost var all := PointsFrom(nodes, batchSize, 0, toPayload);
      var i := 0;
      while i < |nodes|
        invariant 0 <= i <= |nodes| + 1
        invariant points + PointsFrom(nodes, batchSize, i, toPayload) == all
        invariant ids == PointIds(points)
        decreases |nodes| + 1 - i
      {
        var batch, vectors, payloads, end := CollectBatch(nodes, i, toPayload);
        var batchPoints := BatchPoints(batch, vectors, payloads, toPayload);
        BuildPointsStep(nodes, batchSize, i, toPayload, points, batchPoints, end);
        PointIdsAppend(points, batch, toPayload);
        points := points + batchPoints;
        ids := ids + NodeIds(batch);
        i := end + 1;
      }
      assert PointsFrom(nodes, batchSize, i, toPayload) == [];
    }

    /** The first inner loop of `buildPoints`: from `start`, at most
        `batchSize` nodes with their vectors and payloads; `end` is where the
        shared index stops. */
    method CollectBatch(nodes: seq<BaseNode>, start: nat, toPayload: ToPayload)
      returns (batch: seq<BaseNode>, vectors: seq<Embedding>, payloads: seq<Payload>, end: nat)
      requires start <= |nodes|
      ensures end == BatchEnd(|nodes|, batchSize, start)
      ensures batch == nodes[start..end]
      ensures |vectors| == |batch| && |payloads| == |batch|
      ensures forall k :: 0 <= k < |batch| ==> vectors[k] == batch[k].embedding && payloads[k] == toPayload(batch[k])
    {
      batch, vectors, payloads := [], [], [];
      var i := start;
      var j := 0;
      while j < batchSize && i < |nodes|
        invariant start <= i <= BatchEnd(|nodes|, batchSize, start)
        invariant j == i - start
        invariant batch == nodes[start..i]
        invariant |vectors| == |batch| && |payloads| == |batch|
        invariant forall k :: 0 <= k < |batch| ==> vectors[k] == batch[k].embedding && payloads[k] == toPayload(batch[k])
      {
        var node := nodes[i];
        batch := batch + [node];
        vectors := vectors + [node.embedding];
        payloads := payloads + [toPayload(node)];
        j := j + 1;
        i := i + 1;
      }
      end := i;
    }

    /** `add`: initialises the collection on the first non-empty call (its
        vector size from the first node), builds the points, and uploads
        them `batchSize` at a time; returns the ids of the points built.
        `getCollectionSucceeds` is the client's answer to the collection
        lookup, consulted only when the collection is initialised. */
    method Add(embeddingResults: seq<BaseNode>, toPayload: ToPayload, getCollectionSucceeds: bool) returns (ids: seq<string>)
      modifies this
      ensures collectionInitialized == (old(collectionInitialized) || |embeddingResults| > 0)
      ensures batchSize == old(batchSize) && collectionName == old(collectionName)
      ensures calls == old(calls)
                       + (if |embeddingResults| > 0 && !old(collectionInitialized)
                          then InitializeCalls(collectionName, |embeddingResults[0].embedding|, getCollectionSucceeds) else [])
                       + UpsertCalls(collectionName, Chunks(PointsFrom(embeddingResults, batchSize, 0, toPayload), batchSize, 0))
      ensures ids == PointIds(PointsFrom(embeddingResults, batchSize, 0, toPayload))
    {
      if |embeddingResults| > 0 && !collectionInitialized {
        InitializeCollection(|embeddingResults[0].embedding|, getCollectionSucceeds);
      }
      var points;
      points, ids := BuildPoints(embeddingResults, toPayload);
      if batchSize <= 0 {
        NonPositiveBatchBuildsNothing(embeddingResults, batchSize, 0, toPayload);
      }
      UploadInBatches(points);
    }

    /** The upload loop of `add`: `points.slice(i, i + batchSize)` for each
        `i` in steps of `batchSize`. With a batch size of zero or less and
        any point to upload the loop of the source never ends, so that case
        is excluded. */
    method UploadInBatches(points: seq<PointStruct>)
      requires |points| > 0 ==> batchSize > 0
      modifies this
      ensures calls == old(calls) + UpsertCalls(collectionName, Chunks(points, batchSize, 0))
      ensures batchSize == old(batchSize) && collectionName == old(collectionName)
      ensures collectionInitialized == old(collectionInitialized)
    {
      var name := collectionName;
      var size := batchSize;
      var i := 0;
      while i < |points|
        invariant 0 <= i
        invariant batchSize == size && collectionName == name
        invariant collectionInitialized == old(collectionInitialized)
        invariant calls + UpsertCalls(name, Chunks(points, size, i)) == old(calls) + UpsertCalls(name, Chunks(points, size, 0))
        decreases |points| - i
      {
        var chunk := points[i..Min(i + size, |points|)];
        UploadStep(name, points, size, i, calls, chunk);
        calls := calls + [Upsert(name, chunk)];
        i := i + size;
      }
    }

    /** `delete(refDocId)`: one request removing every point whose `doc_id`
        is `refDocId`. */
    method Delete(refDocId: string)
      modifies this
      ensures calls == old(calls) + [DeleteWhere(collectionName, Filter([Condition(DocIdKey, MatchValue(refDocId))]))]
      ensures batchSize == old(batchSize) && collectionName == old(collectionName)
      ensures collectionInitialized == old(collectionInitialized)
    {
      calls := calls + [DeleteWhere(collectionName, Filter([Condition(DocIdKey, MatchValue(refDocId))]))];
    }

    /** `parseToQueryResult` */
    method ParseToQueryResult(response: seq<QuerySearchResult>, toNode: ToNode) returns (result: QueryResult)
      ensures ParsedFrom(result, response, toNode)
    {
      var nodes: seq<BaseNode> := [];
      var similarities: seq<real> := [];
      var ids: seq<string> := [];
      var i := 0;
      while i < |response|
        invariant 0 <= i <= |response|
        invariant ParsedFrom(QueryResult(nodes, similarities, ids), response[..i], toNode)
      {
        var item := response[i];
        ids := ids + [item.id];
        nodes := nodes + [toNode(item.payload)];
        similarities := similarities + [item.score];
        i := i + 1;
      }
      assert response[..i] == response;
      result := QueryResult(nodes, similarities, ids);
    }

    /** `buildQueryFilter` */
    method BuildQueryFilter(query: VectorStoreQuery) returns (f: Option<Filter>)
      ensures f == QueryFilter(query)
    {
      if query.docIds.None? && !Truthy(query.queryStr) && query.filters.None? {
        return None;
      }
      var mustConditions: seq<Condition> := [];
      if query.docIds.Some? {
        mustConditions := mustConditions + [Condition(DocIdKey, MatchAny(query.docIds.value))];
      }
      if query.filters.None? {
        assert QueryFilter(query).value.must == mustConditions;
        return Some(Filter(mustConditions));
      }
      var metadataFilters := query.filters.value.filters;
      ghost var prefix := mustConditions;
      var i := 0;
      while i < |metadataFilters|
        invariant 0 <= i <= |metadataFilters|
        invariant mustConditions == prefix + FilterConditions(metadataFilters[..i])
      {
        var filter := metadataFilters[i];
        FilterConditionsStep(metadataFilters, i);
        mustConditions := mustConditions + [Condition(filter.key, MatchValue(filter.value))];
        i := i + 1;
      }
      assert metadataFilters[..i] == metadataFilters;
      assert prefix == if query.docIds.Some? then [Condition(DocIdKey, MatchAny(query.docIds.value))] else [];
      f := Some(Filter(mustConditions));
    }

    /** `query`: no embedding is an error; otherwise one search request with
        the caller's Qdrant filter if given, else the filter built from the
        query, and the hits read back. `response` is the client's answer. */
    method Query(query: VectorStoreQuery, qdrantFilters: Option<Filter>, response: seq<QuerySearchResult>, toNode: ToNode)
      returns (r: Result<QueryResult, QueryError>)
      modifies this
      ensures query.queryEmbedding.None? ==> r == Err(NoQueryEmbedding) && calls == old(calls)
      ensures query.queryEmbedding.Some? ==>
                && r.Ok? && ParsedFrom(r.value, response, toNode)
                && calls == old(calls) + [Search(collectionName, query.queryEmbedding.value, query.similarityTopK,
                                                 if qdrantFilters.Some? then qdrantFilters else QueryFilter(query))]
      ensures batchSize == old(batchSize) && collectionName == old(collectionName)
      ensures collectionInitialized == old(collectionInitialized)
    {
      if query.queryEmbedding.None? {
        return Err(NoQueryEmbedding);
      }
      var queryFilters: Option<Filter>;
      if qdrantFilters.Some? {
        queryFilters := qdrantFilters;
      } else {
        queryFilters := BuildQueryFilter(query);
      }
      calls := calls + [Search(collectionName, query.queryEmbedding.value, query.similarityTopK, queryFilters)];
      var parsed := ParseToQueryResult(response, toNode);
      r := Ok(parsed);
    }
  }

  /** The second inner loop of `buildPoints`: one point per collected node. */
  method BatchPoints(batch: seq<BaseNode>, vectors: seq<Embedding>, payloads: seq<Payload>, toPayload: ToPayload)
    returns (points: seq<PointStruct>)
    requires |vectors| == |batch| && |payloads| == |batch|
    requires forall k :: 0 <= k < |batch| ==> vectors[k] == batch[k].embedding && payloads[k] == toPayload(batch[k])
    ensures points == PointsOf(batch, toPayload)
  {
    points := [];
    var k := 0;
    while k < |batch|
      invariant 0 <= k <= |batch|
      invariant points == PointsOf(batch[..k], toPayload)
    {
      points := points + [PointStruct(batch[k].id, payloads[k], vectors[k])];
      k := k + 1;
      assert batch[..k] == batch[..k - 1] + [batch[k - 1]];
    }
    assert batch[..k] == batch;
  }

  /** `buildPoints` as evidently intended: every node becomes one point, in
      order, and the ids are the nodes' ids. */
  method BuildPointsIntended(nodes: seq<BaseNode>, toPayload: ToPayload) returns (points: seq<PointStruct>, ids: seq<string>)
    ensures |points| == |nodes|
    ensures forall k :: 0 <= k < |nodes| ==>
              points[k].id == nodes[k].id && points[k].vector == nodes[k].embedding && points[k].payload == toPayload(nodes[k])
    ensures ids == NodeIds(nodes)
  {
    points := [];
    ids := [];
    var i := 0;
    while i < |nodes|
      invariant 0 <= i <= |nodes|
      invariant points == PointsOf(nodes[..i], toPayload)
      invariant ids == NodeIds(nodes[..i])
    {
      points := points + [PointOf(nodes[i], toPayload)];
      ids := ids + [nodes[i].id];
      i := i + 1;
    }
    assert nodes[..i] == nodes;
  }

  /** Everything `add` uploads, chunk after chunk, is exactly the list of
      points built, whatever the batch size. */
  lemma AddUploadsBuiltPoints(nodes: seq<BaseNode>, b: int, toPayload: ToPayload)
    ensures Flatten(Chunks(PointsFrom(nodes, b, 0, toPayload), b, 0)) == PointsFrom(nodes, b, 0, toPayload)
  {
    var points := PointsFrom(nodes, b, 0, toPayload);
    if b <= 0 {
      NonPositiveBatchBuildsNothing(nodes, b, 0, toPayload);
    } else {
      ChunksCover(points, b, 0);
    }
  }
}
