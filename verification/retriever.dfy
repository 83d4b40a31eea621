/**
 * The retriever: a top-K nearest-neighbour query over the current index. The
 * ranking itself (embedding the query and measuring distances) is an input:
 * the positions of the stored chunks, most similar first.
 */
module Retriever {
  import opened Common
  import opened VectorStore

  /** The configured number of chunks retrieved per query. */
  const TOP_K: nat := 4

  /** `build_retriever`: fails exactly when `get_store` fails. */
  method BuildRetriever(vs: VectorStoreService) returns (r: Result<Index>)
    ensures r.Failure? <==> vs.store.None?
    ensures vs.store.Some? ==> r == Success(vs.store.value)
  {
    r := vs.GetStore();
  }

  /** The documents at the first `k` positions of `ranked` that exist in `docs`. */
  function Nearest(docs: seq<Doc>, ranked: seq<nat>, k: nat): (hits: seq<Doc>)
    ensures |hits| <= k && |hits| <= |ranked|
    ensures forall d :: d in hits ==> d in docs
  {
    if ranked == [] || k == 0 then []
    else if ranked[0] < |docs| then [docs[ranked[0]]] + Nearest(docs, ranked[1..], k - 1)
    else Nearest(docs, ranked[1..], k)
  }

  /** With every ranked position stored, hit `i` is the chunk ranked `i`-th, up to `k` of them. */
  lemma {:induction false} NearestInRange(docs: seq<Doc>, ranked: seq<nat>, k: nat)
    requires forall j :: 0 <= j < |ranked| ==> ranked[j] < |docs|
    ensures |Nearest(docs, ranked, k)| == if k < |ranked| then k else |ranked|
    ensures forall i :: 0 <= i < |Nearest(docs, ranked, k)| ==> Nearest(docs, ranked, k)[i] == docs[ranked[i]]
    decreases |ranked|
  {
    if ranked != [] && k != 0 {
      NearestInRange(docs, ranked[1..], k - 1);
    }
  }

  /** `retriever.invoke(query)`: at most TOP_K chunks of the index, in similarity order. */
  function Invoke(index: Index, ranked: seq<nat>): (hits: seq<Doc>)
    ensures |hits| <= TOP_K
    ensures forall d :: d in hits ==> d in index.docs
  {
    Nearest(index.docs, ranked, TOP_K)
  }
}
