/** The in-memory vector store: a dictionary from text id to embedding and a
    dictionary from text id to the id of the document it came from. */
module SimpleStore {
  import opened Common
  import opened Nodes
  import opened TopK

  /** `SimpleVectorStoreData`, the two dictionaries `toDict` hands out. */
  datatype StoreData = StoreData(embeddingDict: map<string, Embedding>, textIdToRefDocId: map<string, string>)

  datatype StoreError =
    | FiltersNotImplemented          // "Metadata filters not implemented for SimpleVectorStore yet."
    | InvalidQueryMode(mode: QueryMode) // "Invalid query mode: …"
    | Ranking(cause: RankingError)   // thrown by the ranking function

  /** The ranking `getTopKMMREmbeddings` computes once every candidate has
      been scored against the query (maximal marginal relevance), given the
      threshold it settles on. */
  type MmrFunction = (Option<Embedding>, seq<Embedding>, Option<int>, seq<string>, real) -> TopKResult

  /** The two optional trailing arguments of `getTopKMMREmbeddings`:
      `_similarityCutoff`, which it never reads, and `mmrThreshold`. */
  datatype MmrCall = MmrCall(similarityCutoff: Option<real>, mmrThreshold: Option<real>)

  /** `mmrThreshold || 0.5`: an absent or zero threshold falls back to 0.5. */
  function MmrThreshold(call: MmrCall): (t: real)
    ensures call.mmrThreshold.Some? && call.mmrThreshold.value != 0.0 ==> t == call.mmrThreshold.value
    ensures call.mmrThreshold.None? || call.mmrThreshold.value == 0.0 ==> t == 0.5
  {
    if call.mmrThreshold.Some? && call.mmrThreshold.value != 0.0 then call.mmrThreshold.value else 0.5
  }

  /** The call in `query`, as written: six arguments, so the query's
      threshold lands in the `_similarityCutoff` slot. */
  function MmrCallAsWritten(query: VectorStoreQuery): (call: MmrCall)
    ensures call.mmrThreshold.None? && call.similarityCutoff == query.mmrThreshold
  {
    MmrCall(query.mmrThreshold, None)
  }

  /** The call as evidently intended: the query's threshold is the
      `mmrThreshold` argument. */
  function MmrCallIntended(query: VectorStoreQuery): (call: MmrCall)
    ensures call.mmrThreshold == query.mmrThreshold
  {
    MmrCall(None, query.mmrThreshold)
  }

  /** As written, every MMR query ranks with threshold 0.5, whatever
      threshold the query asks for. */
  lemma MmrThresholdIgnored(query: VectorStoreQuery)
    ensures MmrThreshold(MmrCallAsWritten(query)) == 0.5
  {
  }

  /** A query asking for threshold 0.9 is ranked with 0.5. */
  lemma MmrThresholdIgnoredExample(query: VectorStoreQuery)
    requires query.mmrThreshold == Some(0.9)
    ensures MmrThreshold(MmrCallAsWritten(query)) != query.mmrThreshold.value
  {
    MmrThresholdIgnored(query);
  }

  /** As intended, a non-zero threshold of the query is the one used. */
  lemma MmrThresholdHonoured(query: VectorStoreQuery)
    requires query.mmrThreshold.Some? && query.mmrThreshold.value != 0.0
    ensures MmrThreshold(MmrCallIntended(query)) == query.mmrThreshold.value
  {
  }

  /** `LEARNER_MODES` */
  predicate IsLearnerMode(m: QueryMode) {
    m.Svm? || m.LinearRegression? || m.LogisticRegression?
  }

  // ---------------------------------------------------------------------------
  // add

  /** The embedding dictionary after the nodes are stored one by one. */
  function AddEmbeddings(d: map<string, Embedding>, nodes: seq<BaseNode>): map<string, Embedding>
    decreases |nodes|
  {
    if nodes == [] then d
    else
      var n := nodes[|nodes| - 1];
      AddEmbeddings(d, nodes[..|nodes| - 1])[n.id := n.embedding]
  }

  /** The text-to-document dictionary after the nodes are stored one by one;
      a node without a source node leaves it alone. */
  function AddRefs(refs: map<string, string>, nodes: seq<BaseNode>): map<string, string>
    decreases |nodes|
  {
    if nodes == [] then refs
    else
      var n := nodes[|nodes| - 1];
      var before := AddRefs(refs, nodes[..|nodes| - 1]);
      if n.sourceNode.Some? then before[n.id := n.sourceNode.value.nodeId] else before
  }

  /** After `add`, a node's id maps to its embedding unless a later node in
      the same call has the same id: the later one wins. */
  lemma {:induction false} AddEmbeddingsLaterWins(d: map<string, Embedding>, nodes: seq<BaseNode>, k: nat)
    requires k < |nodes|
    requires forall j :: k < j < |nodes| ==> nodes[j].id != nodes[k].id
    ensures nodes[k].id in AddEmbeddings(d, nodes)
    ensures AddEmbeddings(d, nodes)[nodes[k].id] == nodes[k].embedding
    decreases |nodes|
  {
    var last := |nodes| - 1;
    if k < last {
      var prefix := nodes[..last];
      assert prefix[k] == nodes[k];
      AddEmbeddingsLaterWins(d, prefix, k);
    }
  }

  /** `add` leaves the embedding of every id it was not given as it was. */
  lemma {:induction false} AddEmbeddingsOthersUnchanged(d: map<string, Embedding>, nodes: seq<BaseNode>, id: string)
    requires forall j :: 0 <= j < |nodes| ==> nodes[j].id != id
    ensures id in AddEmbeddings(d, nodes) <==> id in d
    ensures id in d ==> AddEmbeddings(d, nodes)[id] == d[id]
    decreases |nodes|
  {
    if nodes != [] {
      var prefix := nodes[..|nodes| - 1];
      AddEmbeddingsOthersUnchanged(d, prefix, id);
    }
  }

  /** A node with a source node maps its id to that document, unless a later
      node with the same id and a source node overrides it. */
  lemma {:induction false} AddRefsLaterWins(refs: map<string, string>, nodes: seq<BaseNode>, k: nat)
    requires k < |nodes| && nodes[k].sourceNode.Some?
    requires forall j :: k < j < |nodes| && nodes[j].id == nodes[k].id ==> nodes[j].sourceNode.None?
    ensures nodes[k].id in AddRefs(refs, nodes)
    ensures AddRefs(refs, nodes)[nodes[k].id] == nodes[k].sourceNode.value.nodeId
    decreases |nodes|
  {
    var last := |nodes| - 1;
    if k < last {
      var prefix := nodes[..last];
      assert prefix[k] == nodes[k];
      AddRefsLaterWins(refs, prefix, k);
    }
  }

  /** Ids that come only with nodes lacking a source node keep whatever
      document mapping they had, or none. */
  lemma {:induction false} AddRefsUntouched(refs: map<string, string>, nodes: seq<BaseNode>, id: string)
    requires forall j :: 0 <= j < |nodes| && nodes[j].id == id ==> nodes[j].sourceNode.None?
    ensures id in AddRefs(refs, nodes) <==> id in refs
    ensures id in refs ==> AddRefs(refs, nodes)[id] == refs[id]
    decreases |nodes|
  {
    if nodes != [] {
      var prefix := nodes[..|nodes| - 1];
      AddRefsUntouched(refs, prefix, id);
    }
  }

  // ---------------------------------------------------------------------------
  // delete

  /** The text ids mapped to a document. */
  function RefMembers(refs: map<string, string>, refDocId: string): set<string> {
    set k | k in refs && refs[k] == refDocId
  }

  /** The dictionaries after `delete(refDocId)`. */
  function DeleteRef(data: StoreData, refDocId: string): StoreData {
    var gone := RefMembers(data.textIdToRefDocId, refDocId);
    StoreData(data.embeddingDict - gone, data.textIdToRefDocId - gone)
  }

  /** `delete` removes exactly the text ids mapped to the document, from both
      dictionaries; entries of other documents and embeddings with no
      document mapping stay as they were. */
  lemma DeleteRemovesExactly(data: StoreData, refDocId: string, k: string)
    ensures k in DeleteRef(data, refDocId).textIdToRefDocId ==> DeleteRef(data, refDocId).textIdToRefDocId[k] != refDocId
    ensures k in data.textIdToRefDocId && data.textIdToRefDocId[k] == refDocId ==>
              k !in DeleteRef(data, refDocId).embeddingDict && k !in DeleteRef(data, refDocId).textIdToRefDocId
    ensures k in data.embeddingDict && (k !in data.textIdToRefDocId || data.textIdToRefDocId[k] != refDocId) ==>
              k in DeleteRef(data, refDocId).embeddingDict && DeleteRef(data, refDocId).embeddingDict[k] == data.embeddingDict[k]
    ensures k in data.textIdToRefDocId && data.textIdToRefDocId[k] != refDocId ==>
              k in DeleteRef(data, refDocId).textIdToRefDocId &&
              DeleteRef(data, refDocId).textIdToRefDocId[k] == data.textIdToRefDocId[k]
  {
  }

  // ---------------------------------------------------------------------------
  // query

  /** The stored ids a query may return: all of them, or with `docIds` only
      those listed there. */
  function CandidateIds(dict: map<string, Embedding>, docIds: Option<seq<string>>): set<string> {
    set id | id in dict && (docIds.Some? ==> id in docIds.value)
  }

  /** `items.filter((item) => availableIds.has(item[0]))` on the ids. */
  function FilterIds(ids: seq<string>, allowed: set<string>): (r: seq<string>)
    ensures forall x :: x in r <==> x in ids && x in allowed
    ensures Distinct(ids) ==> Distinct(r)
  {
    if ids == [] then []
    else
      var rest := FilterIds(ids[1..], allowed);
      if ids[0] in allowed then
        assert ids[0] !in ids[1..] ==> ids[0] !in rest;
        [ids[0]] + rest
      else rest
  }

  /** A list without repetitions has as many elements as its set. */
  lemma {:induction false} DistinctCardinality(s: seq<string>)
    requires Distinct(s)
    ensures |set x | x in s| == |s|
  {
    if s != [] {
      var n := |s| - 1;
      var prefix := s[..n];
      DistinctCardinality(prefix);
      assert (set x | x in s) == (set x | x in prefix) + {s[n]};
      assert s[n] !in (set x | x in prefix);
    }
  }

  /** A repeated element occurs at least twice in the multiset. */
  lemma RepeatedCountsTwice(s: seq<Scored>, i: nat, j: nat)
    requires i < j < |s| && s[i] == s[j]
    ensures multiset(s)[s[i]] >= 2
  {
    assert s == s[..j] + s[j..];
    assert s[i] in s[..j] && s[j] in s[j..];
  }

  /** In a list without repetitions each element occurs once. */
  lemma {:induction false} DistinctCountsOnce(s: seq<Scored>, x: Scored)
    requires Distinct(s)
    ensures multiset(s)[x] <= 1
  {
    if s != [] {
      var n := |s| - 1;
      assert s == s[..n] + [s[n]];
      DistinctCountsOnce(s[..n], x);
      assert s[n] !in s[..n];
    }
  }

  /** What a default-mode query returns: `TakeCount` distinct candidate
      ids, each with its own embedding's cosine score, in non-increasing
      score order, and no candidate left out scores higher than any one
      returned. */
  ghost predicate RankedCandidates(res: TopKResult, dict: map<string, Embedding>, candidates: set<string>,
                                   q: Option<Embedding>, topK: int, score: ScoreFunction) {
    && |res.similarities| == |res.ids| == TakeCount(topK, |candidates|)
    && (forall i, j :: 0 <= i < j < |res.ids| ==> res.similarities[i] >= res.similarities[j])
    && Distinct(res.ids)
    && (forall i :: 0 <= i < |res.ids| ==>
          res.ids[i] in candidates && res.ids[i] in dict && q.Some? &&
          res.similarities[i] == CosineScore(score, q.value, dict[res.ids[i]]))
    && (forall id :: id in candidates && id in dict && id !in res.ids ==>
          forall i :: 0 <= i < |res.ids| ==> q.Some? && CosineScore(score, q.value, dict[id]) <= res.similarities[i])
  }

  /** The stored embeddings of `ids`, in the same order. */
  function EmbeddingsOf(dict: map<string, Embedding>, ids: seq<string>): (embs: seq<Embedding>)
    requires forall x :: x in ids ==> x in dict
    ensures |embs| == |ids| && forall i :: 0 <= i < |ids| ==> embs[i] == dict[ids[i]]
  {
    seq(|ids|, i requires 0 <= i < |ids| => dict[ids[i]])
  }

  /** What an MMR query returns: the `mmr` ranking of the candidates, each
      listed once in some order with its stored embedding, under the
      threshold that the call as written settles on. */
  ghost predicate MmrRanked(res: TopKResult, dict: map<string, Embedding>, candidates: set<string>,
                            query: VectorStoreQuery, mmr: MmrFunction) {
    exists ids: seq<string> ::
      && Distinct(ids)
      && (forall x :: x in ids <==> x in candidates)
      && (forall x :: x in ids ==> x in dict)
      && res == mmr(query.queryEmbedding, EmbeddingsOf(dict, ids), query.similarityTopK, ids,
                    MmrThreshold(MmrCallAsWritten(query)))
  }

  /** Ranking the listed candidates with `mmr` is an MMR answer for them. */
  lemma MmrRankedCandidates(dict: map<string, Embedding>, nodeIds: seq<string>, embeddings: seq<Embedding>,
                            candidates: set<string>, query: VectorStoreQuery, mmr: MmrFunction)
    requires Distinct(nodeIds) && |embeddings| == |nodeIds|
    requires forall x :: x in candidates <==> x in nodeIds
    requires forall i :: 0 <= i < |nodeIds| ==> nodeIds[i] in dict && embeddings[i] == dict[nodeIds[i]]
    ensures MmrRanked(mmr(query.queryEmbedding, embeddings, query.similarityTopK, nodeIds,
                          MmrThreshold(MmrCallAsWritten(query))), dict, candidates, query, mmr)
  {
    assert embeddings == EmbeddingsOf(dict, nodeIds);
  }

  /** Scored candidates with distinct ids are distinct pairs. */
  lemma KeptDistinct(nodeIds: seq<string>, embeddings: seq<Embedding>, q: Option<Embedding>, score: ScoreFunction)
    requires Distinct(nodeIds) && |embeddings| == |nodeIds| && (nodeIds != [] ==> q.Some?)
    ensures Distinct(Kept(q, embeddings, nodeIds, None, score))
  {
    var kept := Kept(q, embeddings, nodeIds, None, score);
    KeptWithoutCutoff(q, embeddings, nodeIds, score);
    forall a, b | 0 <= a < b < |kept| ensures kept[a] != kept[b] {
      assert kept[a].id == nodeIds[a] && kept[b].id == nodeIds[b];
    }
  }

  /** A sub-multiset of a list without repetitions has none either. */
  lemma SubMultisetDistinct(kept: seq<Scored>, p: seq<Scored>)
    requires Distinct(kept) && multiset(p) <= multiset(kept)
    ensures Distinct(p)
  {
    forall i, j | 0 <= i < j < |p| ensures p[i] != p[j] {
      if p[i] == p[j] {
        RepeatedCountsTwice(p, i, j);
        DistinctCountsOnce(kept, p[i]);
        assert false;
      }
    }
  }

  /** `kept` scores each candidate once, in order. */
  ghost predicate ScoresEach(kept: seq<Scored>, dict: map<string, Embedding>, nodeIds: seq<string>, q: Option<Embedding>, score: ScoreFunction) {
    && |kept| == |nodeIds|
    && (nodeIds != [] ==> q.Some?)
    && forall a :: 0 <= a < |kept| ==> nodeIds[a] in dict && kept[a] == Scored(CosineScore(score, q.value, dict[nodeIds[a]]), nodeIds[a])
  }

  /** Each chosen pair is a candidate with its own score, and no candidate
      is chosen twice. */
  lemma ChosenAreScoredCandidates(kept: seq<Scored>, dict: map<string, Embedding>, nodeIds: seq<string>,
                                  q: Option<Embedding>, score: ScoreFunction, p: seq<Scored>)
    requires ScoresEach(kept, dict, nodeIds, q, score) && Distinct(nodeIds)
    requires multiset(p) <= multiset(kept)
    ensures forall i :: 0 <= i < |p| ==> p[i].id in nodeIds && p[i].id in dict && q.Some? &&
                                         p[i].similarity == CosineScore(score, q.value, dict[p[i].id])
    ensures forall i, j :: 0 <= i < j < |p| ==> p[i].id != p[j].id
  {
    assert Distinct(kept) by {
      forall a, b | 0 <= a < b < |kept| ensures kept[a] != kept[b] {
        assert kept[a].id == nodeIds[a] && kept[b].id == nodeIds[b];
      }
    }
    SubMultisetDistinct(kept, p);
    forall i | 0 <= i < |p|
      ensures exists a :: 0 <= a < |kept| && p[i] == kept[a]
    {
      assert p[i] in multiset(p);
      assert p[i] in kept;
    }
    forall i, j | 0 <= i < j < |p| ensures p[i].id != p[j].id {
      var a :| 0 <= a < |kept| && p[i] == kept[a];
      var b :| 0 <= b < |kept| && p[j] == kept[b];
      assert p[i] != p[j];
    }
  }

  /** A candidate that was not chosen scores no higher than any chosen one. */
  lemma LeftOutScoreLower(kept: seq<Scored>, dict: map<string, Embedding>, nodeIds: seq<string>,
                          q: Option<Embedding>, score: ScoreFunction, p: seq<Scored>, a: nat)
    requires ScoresEach(kept, dict, nodeIds, q, score)
    requires a < |nodeIds| && forall i :: 0 <= i < |p| ==> p[i].id != nodeIds[a]
    requires forall x :: x in multiset(kept) - multiset(p) ==> forall i :: 0 <= i < |p| ==> x.similarity <= p[i].similarity
    ensures forall i :: 0 <= i < |p| ==> q.Some? && CosineScore(score, q.value, dict[nodeIds[a]]) <= p[i].similarity
  {
    var x := kept[a];
    assert x in multiset(kept);
    assert x !in multiset(p);
    assert x in multiset(kept) - multiset(p);
  }

  /** The ids of a list of pairs, in order. */
  function IdsOf(p: seq<Scored>): (ids: seq<string>)
    ensures |ids| == |p|
    ensures forall k :: 0 <= k < |p| ==> ids[k] == p[k].id
  {
    seq(|p|, k requires 0 <= k < |p| => p[k].id)
  }

  /** `RankedCandidates`, stated on the result read as pairs. */
  ghost predicate RankedPairs(p: seq<Scored>, dict: map<string, Embedding>, candidates: set<string>,
                              q: Option<Embedding>, topK: int, score: ScoreFunction) {
    && |p| == TakeCount(topK, |candidates|)
    && SortedDesc(p)
    && (forall i, j :: 0 <= i < j < |p| ==> p[i].id != p[j].id)
    && (forall i :: 0 <= i < |p| ==>
          p[i].id in candidates && p[i].id in dict && q.Some? &&
          p[i].similarity == CosineScore(score, q.value, dict[p[i].id]))
    && (forall id :: id in candidates && id in dict && id !in IdsOf(p) ==>
          forall i :: 0 <= i < |p| ==> q.Some? && CosineScore(score, q.value, dict[id]) <= p[i].similarity)
  }

  lemma RankedPairsRanked(res: TopKResult, dict: map<string, Embedding>, candidates: set<string>,
                          q: Option<Embedding>, topK: int, score: ScoreFunction)
    requires |res.similarities| == |res.ids|
    requires RankedPairs(Pairs(res), dict, candidates, q, topK, score)
    ensures RankedCandidates(res, dict, candidates, q, topK, score)
  {
    var p := Pairs(res);
    assert IdsOf(p) == res.ids;
    if |p| > 0 {
      assert p[0].id in candidates;  // so the query is present
    }
    forall i, j | 0 <= i < j < |res.ids| ensures res.similarities[i] >= res.similarities[j] {
      assert p[i].similarity >= p[j].similarity;
    }
    forall i, j | 0 <= i < j < |res.ids| ensures res.ids[i] != res.ids[j] {
      assert p[i].id != p[j].id;
    }
    forall i | 0 <= i < |res.ids|
      ensures res.ids[i] in candidates && res.ids[i] in dict && q.Some? &&
              res.similarities[i] == CosineScore(score, q.value, dict[res.ids[i]])
    {
      assert p[i].id == res.ids[i] && p[i].similarity == res.similarities[i];
    }
    forall id | id in candidates && id in dict && id !in res.ids
      ensures forall i :: 0 <= i < |res.ids| ==> q.Some? && CosineScore(score, q.value, dict[id]) <= res.similarities[i]
    {
      assert id !in IdsOf(p);
      forall i | 0 <= i < |res.ids| ensures q.Some? && CosineScore(score, q.value, dict[id]) <= res.similarities[i] {
        assert p[i].similarity == res.similarities[i];
      }
    }
  }

  /** The number of candidates is the number of distinct ids listed. */
  lemma CandidateCount(nodeIds: seq<string>, candidates: set<string>)
    requires Distinct(nodeIds)
    requires forall x :: x in candidates <==> x in nodeIds
    ensures |candidates| == |nodeIds|
  {
    DistinctCardinality(nodeIds);
    assert candidates == set x | x in nodeIds;
  }

  /** A top-k selection of the scored candidates ranks them. */
  lemma TopKPairsRanked(kept: seq<Scored>, dict: map<string, Embedding>, nodeIds: seq<string>, candidates: set<string>,
                        q: Option<Embedding>, topK: int, score: ScoreFunction, p: seq<Scored>)
    requires ScoresEach(kept, dict, nodeIds, q, score) && Distinct(nodeIds)
    requires forall x :: x in candidates <==> x in nodeIds
    requires IsTopK(kept, topK, p)
    ensures RankedPairs(p, dict, candidates, q, topK, score)
  {
    CandidateCount(nodeIds, candidates);
    ChosenAreScoredCandidates(kept, dict, nodeIds, q, score, p);
    forall id | id in candidates && id in dict && id !in IdsOf(p)
      ensures forall i :: 0 <= i < |p| ==> q.Some? && CosineScore(score, q.value, dict[id]) <= p[i].similarity
    {
      var a :| 0 <= a < |nodeIds| && nodeIds[a] == id;
      LeftOutScoreLower(kept, dict, nodeIds, q, score, p, a);
    }
  }

  /** A top-k selection over the stored candidates, each scored once,
      ranks the candidates. */
  lemma TopKRanksCandidates(dict: map<string, Embedding>, nodeIds: seq<string>, embeddings: seq<Embedding>,
                            q: Option<Embedding>, topK: int, score: ScoreFunction, res: TopKResult, candidates: set<string>)
    requires Distinct(nodeIds) && |embeddings| == |nodeIds|
    requires forall x :: x in candidates <==> x in nodeIds
    requires forall i :: 0 <= i < |nodeIds| ==> nodeIds[i] in dict && embeddings[i] == dict[nodeIds[i]]
    requires nodeIds != [] ==> q.Some?
    requires |res.similarities| == |res.ids|
    requires IsTopK(Kept(q, embeddings, nodeIds, None, score), topK, Pairs(res))
    ensures RankedCandidates(res, dict, candidates, q, topK, score)
  {
    var kept := Kept(q, embeddings, nodeIds, None, score);
    KeptWithoutCutoff(q, embeddings, nodeIds, score);
    assert ScoresEach(kept, dict, nodeIds, q, score);
    TopKPairsRanked(kept, dict, nodeIds, candidates, q, topK, score, Pairs(res));
    RankedPairsRanked(res, dict, candidates, q, topK, score);
  }

  /** The ranking accepts the listed embeddings exactly when every candidate's
      embedding has the query's length (and there is a query when there is
      any candidate). */
  lemma ComparableIffCandidatesComparable(dict: map<string, Embedding>, nodeIds: seq<string>, embeddings: seq<Embedding>,
                                          q: Option<Embedding>, candidates: set<string>)
    requires |embeddings| == |nodeIds|
    requires forall i :: 0 <= i < |nodeIds| ==> nodeIds[i] in dict && embeddings[i] == dict[nodeIds[i]]
    requires forall x :: x in candidates <==> x in nodeIds
    ensures forall id :: id in candidates ==> id in dict
    ensures (embeddings == [] || Comparable(q, embeddings)) <==>
            forall id :: id in candidates ==> q.Some? && |dict[id]| == |q.value|
  {
    forall id | id in candidates ensures exists a :: 0 <= a < |nodeIds| && nodeIds[a] == id && id in dict {
      assert id in nodeIds;
    }
    if forall id :: id in candidates ==> q.Some? && |dict[id]| == |q.value| {
      if embeddings != [] {
        assert nodeIds[0] in candidates;
        forall i | 0 <= i < |embeddings| ensures |embeddings[i]| == |q.value| {
          assert nodeIds[i] in candidates;
        }
      }
    }
  }

  class SimpleVectorStore {
    var embeddingDict: map<string, Embedding>
    var textIdToRefDocId: map<string, string>

    /** `new SimpleVectorStore(data?)`: the given dictionaries, or empty ones. */
    constructor (data: Option<StoreData>)
      ensures data.Some? ==> embeddingDict == data.value.embeddingDict && textIdToRefDocId == data.value.textIdToRefDocId
      ensures data.None? ==> embeddingDict == map[] && textIdToRefDocId == map[]
    {
      var d := data.GetOr(StoreData(map[], map[]));
      embeddingDict := d.embeddingDict;
      textIdToRefDocId := d.textIdToRefDocId;
    }

    /** `SimpleVectorStore.fromDict(saveDict)` */
    constructor FromDict(saveDict: StoreData)
      ensures embeddingDict == saveDict.embeddingDict && textIdToRefDocId == saveDict.textIdToRefDocId
    {
      embeddingDict := saveDict.embeddingDict;
      textIdToRefDocId := saveDict.textIdToRefDocId;
    }

    /** `toDict()` */
    function ToDict(): (d: StoreData)
      reads this
      ensures d.embeddingDict == embeddingDict && d.textIdToRefDocId == textIdToRefDocId
    {
      StoreData(embeddingDict, textIdToRefDocId)
    }

    /** `get(textId)`: the stored embedding, `undefined` when there is none. */
    function Get(textId: string): (r: Option<Embedding>)
      reads this
      ensures r.Some? <==> textId in embeddingDict
      ensures r.Some? ==> r.value == embeddingDict[textId]
    {
      if textId in embeddingDict then Some(embeddingDict[textId]) else None
    }

    /** `add(embeddingResults)`: stores each node's embedding under its id and,
        when it has a source node, its document id; returns the ids in input
        order. */
    method Add(embeddingResults: seq<BaseNode>) returns (ids: seq<string>)
      modifies this
      ensures embeddingDict == AddEmbeddings(old(embeddingDict), embeddingResults)
      ensures textIdToRefDocId == AddRefs(old(textIdToRefDocId), embeddingResults)
      ensures ids == NodeIds(embeddingResults)
    {
      var i := 0;
      while i < |embeddingResults|
        invariant 0 <= i <= |embeddingResults|
        invariant embeddingDict == AddEmbeddings(old(embeddingDict), embeddingResults[..i])
        invariant textIdToRefDocId == AddRefs(old(textIdToRefDocId), embeddingResults[..i])
      {
        var node := embeddingResults[i];
        assert embeddingResults[..i + 1][..i] == embeddingResults[..i];
        embeddingDict := embeddingDict[node.id := node.embedding];
        if node.sourceNode.Some? {
          textIdToRefDocId := textIdToRefDocId[node.id := node.sourceNode.value.nodeId];
        }
        i := i + 1;
      }
      assert embeddingResults[..i] == embeddingResults;
      ids := NodeIds(embeddingResults);
    }

    /** `delete(refDocId)` */
    method Delete(refDocId: string)
      modifies this
      ensures StoreData(embeddingDict, textIdToRefDocId) ==
              DeleteRef(StoreData(old(embeddingDict), old(textIdToRefDocId)), refDocId)
    {
      var textIdsToDelete := RefMembers(textIdToRefDocId, refDocId);
      var remaining := textIdsToDelete;
      while remaining != {}
        invariant remaining <= textIdsToDelete
        invariant embeddingDict == old(embeddingDict) - (textIdsToDelete - remaining)
        invariant textIdToRefDocId == old(textIdToRefDocId) - (textIdsToDelete - remaining)
        decreases remaining
      {
        var textId :| textId in remaining;
        embeddingDict := embeddingDict - {textId};
        textIdToRefDocId := textIdToRefDocId - {textId};
        remaining := remaining - {textId};
      }
    }

    /** `Object.entries(embeddingDict)`, keys only: every stored id once, in
        an order the model leaves open. */
    method StoredIds() returns (ks: seq<string>)
      ensures Distinct(ks)
      ensures forall k :: k in ks <==> k in embeddingDict
    {
      ks := [];
      var remaining := embeddingDict.Keys;
      while remaining != {}
        invariant remaining <= embeddingDict.Keys
        invariant Distinct(ks)
        invariant forall k :: k in ks <==> k in embeddingDict && k !in remaining
        decreases remaining
      {
        var k :| k in remaining;
        ks := ks + [k];
        remaining := remaining - {k};
      }
    }

    /** `query(query)` */
    method Query(query: VectorStoreQuery, score: ScoreFunction, mmr: MmrFunction)
      returns (r: Result<TopKResult, StoreError>)
      ensures query.filters.Some? ==> r == Err(FiltersNotImplemented)
      ensures query.filters.None? && IsLearnerMode(query.mode) ==> r == Err(Ranking(LearnerNotImplemented))
      ensures query.filters.None? && query.mode.OtherMode? ==> r == Err(InvalidQueryMode(query.mode))
      ensures query.filters.None? && (query.mode.DefaultMode? || query.mode.Mmr?) ==>
                (r.Ok? <==> forall id :: id in CandidateIds(embeddingDict, query.docIds) ==>
                              query.queryEmbedding.Some? && |embeddingDict[id]| == |query.queryEmbedding.value|)
      ensures query.filters.None? && (query.mode.DefaultMode? || query.mode.Mmr?) && r.Err? ==>
                r.error == Ranking(if query.queryEmbedding.None? then UndefinedEmbedding else EmbeddingLengthMismatch)
      ensures query.filters.None? && query.mode.DefaultMode? && r.Ok? ==>
                RankedCandidates(r.value, embeddingDict, CandidateIds(embeddingDict, query.docIds),
                                 query.queryEmbedding, query.similarityTopK.GetOr(DefaultSimilarityTopK), score)
      ensures query.filters.None? && query.mode.Mmr? && r.Ok? ==>
                MmrRanked(r.value, embeddingDict, CandidateIds(embeddingDict, query.docIds), query, mmr)
    {
      if query.filters.Some? {
        return Err(FiltersNotImplemented);
      }
      var items := StoredIds();
      var nodeIds := if query.docIds.Some? then FilterIds(items, (set x | x in query.docIds.value)) else items;
      var candidates := CandidateIds(embeddingDict, query.docIds);
      assert forall x :: x in candidates <==> x in nodeIds;
      var dict := embeddingDict;
      var embeddings := seq(|nodeIds|, i requires 0 <= i < |nodeIds| => dict[nodeIds[i]]);
      ComparableIffCandidatesComparable(dict, nodeIds, embeddings, query.queryEmbedding, candidates);

      if IsLearnerMode(query.mode) {
        var learned := GetTopKEmbeddingsLearner(query.queryEmbedding, embeddings, query.similarityTopK, nodeIds);
        r := Err(Ranking(learned.error));
      } else if query.mode.Mmr? {
        // its first loop scores every candidate with `similarity`
        var scored := ScoreAboveCutoff(query.queryEmbedding, embeddings, nodeIds, None, score);
        if scored.Err? {
          r := Err(Ranking(scored.error));
        } else {
          var threshold := MmrThreshold(MmrCallAsWritten(query));
          r := Ok(mmr(query.queryEmbedding, embeddings, query.similarityTopK, nodeIds, threshold));
          MmrRankedCandidates(dict, nodeIds, embeddings, candidates, query, mmr);
        }
      } else if query.mode.DefaultMode? {
        var top := GetTopKEmbeddings(query.queryEmbedding, embeddings, query.similarityTopK, nodeIds, None, score);
        if top.Err? {
          r := Err(Ranking(top.error));
          assert !Comparable(query.queryEmbedding, embeddings);
        } else {
          r := Ok(top.value);
          TopKRanksCandidates(embeddingDict, nodeIds, embeddings, query.queryEmbedding,
                              query.similarityTopK.GetOr(DefaultSimilarityTopK), score, top.value, candidates);
        }
      } else {
        r := Err(InvalidQueryMode(query.mode));
      }
    }
  }

  /** `toDict(fromDict(d))` gives back both dictionaries of `d`. */
  method FromDictToDict(d: StoreData) returns (back: StoreData)
    ensures back == d
  {
    var store := new SimpleVectorStore.FromDict(d);
    back := store.ToDict();
  }
}
