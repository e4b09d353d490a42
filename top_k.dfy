/** Similarity ranking of the in-memory vector store: the length check of
    `similarity`, the cutoff filter, descending sort and first-k selection of
    `getTopKEmbeddings`, and the learner ranking that is not implemented. The
    similarity arithmetic itself is a parameter `score`. */
module TopK {
  import opened Common
  import opened Nodes

  datatype SimilarityType = Cosine | DotProduct | Euclidean | UnknownSimilarity(name: string)

  datatype RankingError =
    | UndefinedEmbedding       // reading `.length` of an absent query embedding
    | EmbeddingLengthMismatch  // "Embedding length mismatch"
    | SimilarityNotImplemented // "Not implemented yet" (unknown similarity type)
    | IdsLengthMismatch        // "embeddings and embeddingIds length mismatch"
    | LearnerNotImplemented    // "Not implemented yet" (learner query modes)

  /** The cosine, dot-product and negative Euclidean formulas. */
  type ScoreFunction = (SimilarityType, Embedding, Embedding) -> real

  /** The cosine score the store ranks by. */
  function CosineScore(score: ScoreFunction, a: Embedding, b: Embedding): real {
    score(Cosine, a, b)
  }

  /** `DEFAULT_SIMILARITY_TOP_K` */
  const DefaultSimilarityTopK: int := 2

  /** `similarity(embedding1, embedding2, mode)` */
  function Similarity(e1: Option<Embedding>, e2: Embedding, mode: SimilarityType, score: ScoreFunction): (r: Result<real, RankingError>)
    ensures r.Ok? <==> e1.Some? && |e1.value| == |e2| && !mode.UnknownSimilarity?
    ensures r.Ok? ==> r.value == score(mode, e1.value, e2)
    ensures e1.None? ==> r == Err(UndefinedEmbedding)
    ensures e1.Some? && |e1.value| != |e2| ==> r == Err(EmbeddingLengthMismatch)
  {
    if e1.None? then Err(UndefinedEmbedding)
    else if |e1.value| != |e2| then Err(EmbeddingLengthMismatch)
    else if mode.UnknownSimilarity? then Err(SimilarityNotImplemented)
    else Ok(score(mode, e1.value, e2))
  }

  /** `getTopKEmbeddingsLearner`: always throws. */
  function GetTopKEmbeddingsLearner(queryEmbedding: Option<Embedding>, embeddings: seq<Embedding>,
                                    similarityTopK: Option<int>, embeddingIds: seq<string>): (r: Result<TopKResult, RankingError>)
    ensures r == Err(LearnerNotImplemented)
  {
    Err(LearnerNotImplemented)
  }

  /** `{similarity, id}` */
  datatype Scored = Scored(similarity: real, id: string)

  /** `[resultSimilarities, resultIds]` */
  datatype TopKResult = TopKResult(similarities: seq<real>, ids: seq<string>)

  /** The result read as a list of `{similarity, id}` pairs. */
  function Pairs(r: TopKResult): (p: seq<Scored>)
    requires |r.similarities| == |r.ids|
    ensures |p| == |r.ids|
    ensures forall i :: 0 <= i < |p| ==> p[i].similarity == r.similarities[i] && p[i].id == r.ids[i]
  {
    seq(|r.ids|, i requires 0 <= i < |r.ids| => Scored(r.similarities[i], r.ids[i]))
  }

  /** Every embedding can be compared with the query. */
  predicate Comparable(q: Option<Embedding>, embeddings: seq<Embedding>) {
    q.Some? && forall i :: 0 <= i < |embeddings| ==> |embeddings[i]| == |q.value|
  }

  /** The first loop of `getTopKEmbeddings`: each embedding's cosine score
      with its id, in input order, keeping only scores strictly above the
      cutoff (all of them when there is none). */
  function Kept(q: Option<Embedding>, embeddings: seq<Embedding>, ids: seq<string>, cutoff: Option<real>, score: ScoreFunction): (s: seq<Scored>)
    requires |ids| == |embeddings|
    requires embeddings != [] ==> q.Some?
    decreases |embeddings|
  {
    if embeddings == [] then []
    else
      var n := |embeddings| - 1;
      var rest := Kept(q, embeddings[..n], ids[..n], cutoff, score);
      var sim := CosineScore(score, q.value, embeddings[n]);
      if cutoff.None? || sim > cutoff.value then rest + [Scored(sim, ids[n])] else rest
  }

  /** A kept pair is the score of one of the inputs, above the cutoff. */
  lemma {:induction false} KeptMembers(q: Option<Embedding>, embeddings: seq<Embedding>, ids: seq<string>, cutoff: Option<real>, score: ScoreFunction, x: Scored)
    requires |ids| == |embeddings| && (embeddings != [] ==> q.Some?)
    ensures x in Kept(q, embeddings, ids, cutoff, score) <==>
              exists i :: 0 <= i < |embeddings| && x == Scored(CosineScore(score, q.value, embeddings[i]), ids[i])
                          && (cutoff.None? || x.similarity > cutoff.value)
    decreases |embeddings|
  {
    if embeddings != [] {
      var n := |embeddings| - 1;
      KeptMembers(q, embeddings[..n], ids[..n], cutoff, score, x);
      var sim := CosineScore(score, q.value, embeddings[n]);
      if x in Kept(q, embeddings, ids, cutoff, score) {
        if x !in Kept(q, embeddings[..n], ids[..n], cutoff, score) {
          assert x == Scored(sim, ids[n]);
        } else {
          var i :| 0 <= i < n && x == Scored(CosineScore(score, q.value, embeddings[..n][i]), ids[..n][i])
                   && (cutoff.None? || x.similarity > cutoff.value);
          assert embeddings[..n][i] == embeddings[i];
        }
      } else {
        forall i | 0 <= i < |embeddings| && (cutoff.None? || CosineScore(score, q.value, embeddings[i]) > cutoff.value)
          ensures x != Scored(CosineScore(score, q.value, embeddings[i]), ids[i])
        {
          if i < n {
            assert embeddings[..n][i] == embeddings[i] && ids[..n][i] == ids[i];
          }
        }
      }
    }
  }

  /** Without a cutoff every input is kept, in order. */
  lemma {:induction false} KeptWithoutCutoff(q: Option<Embedding>, embeddings: seq<Embedding>, ids: seq<string>, score: ScoreFunction)
    requires |ids| == |embeddings| && (embeddings != [] ==> q.Some?)
    ensures |Kept(q, embeddings, ids, None, score)| == |embeddings|
    ensures forall i :: 0 <= i < |embeddings| ==> Kept(q, embeddings, ids, None, score)[i] == Scored(CosineScore(score, q.value, embeddings[i]), ids[i])
    decreases |embeddings|
  {
    if embeddings != [] {
      var n := |embeddings| - 1;
      KeptWithoutCutoff(q, embeddings[..n], ids[..n], score);
    }
  }

  predicate SortedDesc(s: seq<Scored>) {
    forall i, j :: 0 <= i < j < |s| ==> s[i].similarity >= s[j].similarity
  }

  /** Inserts `x` before the first element that does not score higher, so
      that among equal scores the earlier input stays first. */
  function InsertDesc(x: Scored, s: seq<Scored>): (r: seq<Scored>)
    requires SortedDesc(s)
    ensures |r| == |s| + 1
    ensures SortedDesc(r)
    ensures multiset(r) == multiset(s) + multiset{x}
    ensures r[0] == x || (s != [] && r[0] == s[0])
  {
    if s == [] || s[0].similarity <= x.similarity then
      SortedCons(x, s);
      [x] + s
    else
      var tail := InsertDesc(x, s[1..]);
      SortedCons(s[0], tail);
      assert s == [s[0]] + s[1..];
      [s[0]] + tail
  }

  /** Putting an element no lower than the head in front keeps a list
      sorted. */
  lemma SortedCons(h: Scored, t: seq<Scored>)
    requires SortedDesc(t) && (t != [] ==> t[0].similarity <= h.similarity)
    ensures SortedDesc([h] + t)
  {
    var r := [h] + t;
    forall i, j | 0 <= i < j < |r| ensures r[i].similarity >= r[j].similarity {
      assert r[j] == t[j - 1];
      if i > 0 {
        assert r[i] == t[i - 1];
      }
    }
  }

  /** `similarities.sort((a, b) => b.similarity - a.similarity)`: a stable
      sort into non-increasing score order. */
  function SortDesc(s: seq<Scored>): (r: seq<Scored>)
    ensures |r| == |s|
    ensures SortedDesc(r)
    ensures multiset(r) == multiset(s)
  {
    if s == [] then []
    else
      assert s == [s[0]] + s[1..];
      InsertDesc(s[0], SortDesc(s[1..]))
  }

  /** How many results the second loop collects: `i < similarityTopK`
      stops it at `topK`, the `break` at the end of the list. */
  function TakeCount(topK: int, n: nat): (c: nat)
    ensures c <= n
    ensures topK <= 0 ==> c == 0
    ensures topK > 0 ==> c == Min(topK, n)
  {
    if topK <= 0 then 0 else Min(topK, n)
  }

  /** What a top-k selection promises: `TakeCount` results, in
      non-increasing score order, drawn from the candidates, and no candidate
      left out scores higher than any one returned. */
  ghost predicate IsTopK(kept: seq<Scored>, topK: int, r: seq<Scored>) {
    && |r| == TakeCount(topK, |kept|)
    && SortedDesc(r)
    && multiset(r) <= multiset(kept)
    && forall x :: x in multiset(kept) - multiset(r) ==> forall i :: 0 <= i < |r| ==> x.similarity <= r[i].similarity
  }

  /** The first `TakeCount` elements of the sorted candidates are a top-k
      selection. */
  lemma SortedPrefixIsTopK(kept: seq<Scored>, topK: int)
    ensures IsTopK(kept, topK, SortDesc(kept)[..TakeCount(topK, |kept|)])
  {
    var s := SortDesc(kept);
    SortedPrefixSplit(s, TakeCount(topK, |kept|));
  }

  /** Cutting a sorted list after `c` elements: the prefix is sorted, and
      nothing in the rest scores higher than anything in the prefix. */
  lemma SortedPrefixSplit(s: seq<Scored>, c: nat)
    requires SortedDesc(s) && c <= |s|
    ensures SortedDesc(s[..c])
    ensures multiset(s[..c]) <= multiset(s)
    ensures forall x :: x in multiset(s) - multiset(s[..c]) ==> forall i :: 0 <= i < c ==> x.similarity <= s[i].similarity
  {
    CutMultiset(s, c);
    forall x | x in multiset(s) - multiset(s[..c])
      ensures forall i :: 0 <= i < c ==> x.similarity <= s[i].similarity
    {
      assert x in multiset(s[c..]);
      var j :| 0 <= j < |s[c..]| && s[c..][j] == x;
      assert s[c + j] == x;
    }
  }

  /** A list's multiset is that of its prefix plus that of the rest. */
  lemma CutMultiset(s: seq<Scored>, c: nat)
    requires c <= |s|
    ensures multiset(s) == multiset(s[..c]) + multiset(s[c..])
  {
    assert s == s[..c] + s[c..];
  }

  /** The first loop of `getTopKEmbeddings`: score every embedding against
      the query, stopping at the first one `similarity` rejects. */
  method ScoreAboveCutoff(queryEmbedding: Option<Embedding>, embeddings: seq<Embedding>, embeddingIds: seq<string>,
                          similarityCutoff: Option<real>, score: ScoreFunction)
    returns (r: Result<seq<Scored>, RankingError>)
    requires |embeddingIds| == |embeddings|
    ensures r.Ok? <==> embeddings == [] || Comparable(queryEmbedding, embeddings)
    ensures r.Err? ==> r.error == if queryEmbedding.None? then UndefinedEmbedding else EmbeddingLengthMismatch
    ensures r.Ok? ==> r.value == Kept(queryEmbedding, embeddings, embeddingIds, similarityCutoff, score)
  {
    var similarities: seq<Scored> := [];
    var i := 0;
    while i < |embeddings|
      invariant 0 <= i <= |embeddings|
      invariant i > 0 ==> Comparable(queryEmbedding, embeddings[..i])
      invariant similarities == Kept(queryEmbedding, embeddings[..i], embeddingIds[..i], similarityCutoff, score)
    {
      var sim := Similarity(queryEmbedding, embeddings[i], Cosine, score);
      if sim.Err? {
        return Err(sim.error);
      }
      assert embeddings[..i + 1][..i] == embeddings[..i] && embeddingIds[..i + 1][..i] == embeddingIds[..i];
      if similarityCutoff.None? || sim.value > similarityCutoff.value {
        similarities := similarities + [Scored(sim.value, embeddingIds[i])];
      }
      i := i + 1;
    }
    assert embeddings[..i] == embeddings && embeddingIds[..i] == embeddingIds;
    r := Ok(similarities);
  }

  /** The second loop of `getTopKEmbeddings`: the first `topK` pairs of the
      sorted list, or all of them when there are fewer. */
  method TakeFirst(sorted: seq<Scored>, topK: int) returns (result: TopKResult)
    ensures |result.similarities| == |result.ids|
    ensures Pairs(result) == sorted[..TakeCount(topK, |sorted|)]
  {
    var resultSimilarities: seq<real> := [];
    var resultIds: seq<string> := [];
    var i := 0;
    while i < topK
      invariant 0 <= i <= TakeCount(topK, |sorted|)
      invariant |resultSimilarities| == i && |resultIds| == i
      invariant forall t :: 0 <= t < i ==> resultSimilarities[t] == sorted[t].similarity && resultIds[t] == sorted[t].id
    {
      if i >= |sorted| {
        break;
      }
      resultSimilarities := resultSimilarities + [sorted[i].similarity];
      resultIds := resultIds + [sorted[i].id];
      i := i + 1;
    }
    result := TopKResult(resultSimilarities, resultIds);
  }

  /** `getTopKEmbeddings`, with the embedding ids supplied by the caller. */
  method GetTopKEmbeddings(queryEmbedding: Option<Embedding>, embeddings: seq<Embedding>, similarityTopK: Option<int>,
                           embeddingIds: seq<string>, similarityCutoff: Option<real>, score: ScoreFunction)
    returns (r: Result<TopKResult, RankingError>)
    ensures |embeddingIds| != |embeddings| <==> r == Err(IdsLengthMismatch)
    ensures |embeddingIds| == |embeddings| ==> (r.Ok? <==> embeddings == [] || Comparable(queryEmbedding, embeddings))
    ensures |embeddingIds| == |embeddings| && r.Err? ==>
              r.error == if queryEmbedding.None? then UndefinedEmbedding else EmbeddingLengthMismatch
    ensures r.Ok? ==> |r.value.similarities| == |r.value.ids| && |embeddingIds| == |embeddings|
    ensures r.Ok? ==>
              var kept := Kept(queryEmbedding, embeddings, embeddingIds, similarityCutoff, score);
              var k := similarityTopK.GetOr(DefaultSimilarityTopK);
              && Pairs(r.value) == SortDesc(kept)[..TakeCount(k, |kept|)]
              && IsTopK(kept, k, Pairs(r.value))
  {
    if |embeddingIds| != |embeddings| {
      return Err(IdsLengthMismatch);
    }
    var similarities := ScoreAboveCutoff(queryEmbedding, embeddings, embeddingIds, similarityCutoff, score);
    if similarities.Err? {
      return Err(similarities.error);
    }
    var sorted := SortDesc(similarities.value);
    var topK := similarityTopK.GetOr(DefaultSimilarityTopK);
    var result := TakeFirst(sorted, topK);
    SortedPrefixIsTopK(similarities.value, topK);
    r := Ok(result);
  }
}
