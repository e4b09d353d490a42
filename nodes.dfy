/** The values both vector stores exchange with their callers: nodes with
    their embeddings, queries, and query results. */
module Nodes {
  import opened Common

  /** An embedding vector; its entries are only stored and compared for
      length here. */
  type Embedding = seq<real>

  /** A flat string-keyed record (node metadata, a point payload). */
  type Payload = map<string, string>

  /** `node.sourceNode`: the document a node was cut from. */
  datatype RelatedNode = RelatedNode(nodeId: string)

  /** `BaseNode`, as far as the stores use it: its id, the embedding
      `getEmbedding()` returns, its source document and its metadata. */
  datatype BaseNode = BaseNode(id: string, embedding: Embedding, sourceNode: Option<RelatedNode>, metadata: Payload)

  /** `query.mode` */
  datatype QueryMode = DefaultMode | Svm | LinearRegression | LogisticRegression | Mmr | OtherMode(name: string)

  /** One metadata filter `{key, value}`. */
  datatype MetadataFilter = MetadataFilter(key: string, value: string)

  /** `query.filters`: `{filters: MetadataFilter[]}` */
  datatype MetadataFilters = MetadataFilters(filters: seq<MetadataFilter>)

  /** `VectorStoreQuery`; every optional property is an `Option`. */
  datatype VectorStoreQuery = VectorStoreQuery(
    queryEmbedding: Option<Embedding>,
    similarityTopK: Option<int>,
    docIds: Option<seq<string>>,
    queryStr: Option<string>,
    mode: QueryMode,
    mmrThreshold: Option<real>,
    filters: Option<MetadataFilters>)

  /** The ids of a list of nodes, in order. */
  function NodeIds(nodes: seq<BaseNode>): (ids: seq<string>)
    ensures |ids| == |nodes|
    ensures forall k :: 0 <= k < |nodes| ==> ids[k] == nodes[k].id
  {
    seq(|nodes|, k requires 0 <= k < |nodes| => nodes[k].id)
  }

  /** No element occurs twice. */
  predicate Distinct<T(==)>(s: seq<T>) {
    forall i, j :: 0 <= i < j < |s| ==> s[i] != s[j]
  }
}
