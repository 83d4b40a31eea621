/**
 * The chunker: every document's content is split by the text splitter (an
 * input function here, since the splitting is the library's), and each piece
 * becomes a chunk carrying the document's metadata plus its `chunk_index`.
 */
module Chunker {
  import opened Common

  /** The chunks of one document: piece `i` of the split, numbered `i`. */
  function DocChunks(d: Doc, texts: seq<string>): seq<Doc> {
    seq(|texts|, i requires 0 <= i < |texts| => Doc(texts[i], d.metadata["chunk_index" := Int(i)]))
  }

  /** The chunks of all documents, document after document. */
  function ChunkAll(docs: seq<Doc>, split: string -> seq<string>): seq<Doc>
    decreases |docs|
  {
    if docs == [] then []
    else ChunkAll(docs[..|docs| - 1], split) + DocChunks(docs[|docs| - 1], split(docs[|docs| - 1].content))
  }

  /** The number of pieces the splitter makes of all documents together. */
  function TotalSplits(docs: seq<Doc>, split: string -> seq<string>): nat
    decreases |docs|
  {
    if docs == [] then 0
    else TotalSplits(docs[..|docs| - 1], split) + |split(docs[|docs| - 1].content)|
  }

  /** One chunk per piece of every document. */
  lemma {:induction false} ChunkAllLength(docs: seq<Doc>, split: string -> seq<string>)
    ensures |ChunkAll(docs, split)| == TotalSplits(docs, split)
    decreases |docs|
  {
    if docs != [] {
      ChunkAllLength(docs[..|docs| - 1], split);
    }
  }

  /** Chunking a concatenation is concatenating the chunkings: document order is kept. */
  lemma {:induction false} ChunkAllAppend(a: seq<Doc>, b: seq<Doc>, split: string -> seq<string>)
    ensures ChunkAll(a + b, split) == ChunkAll(a, split) + ChunkAll(b, split)
    decreases |b|
  {
    if b == [] {
      assert a + b == a;
    } else {
      var b' := b[..|b| - 1];
      assert (a + b)[..|a + b| - 1] == a + b';
      assert (a + b)[|a + b| - 1] == b[|b| - 1];
      ChunkAllAppend(a, b', split);
    }
  }

  /**
   * Piece `k` of document `j` is the chunk at position `k` after all pieces of
   * the earlier documents: its content is that piece, its metadata the
   * document's with `chunk_index` set to `k`, restarting at 0 for every document.
   */
  lemma {:induction false} ChunkAt(docs: seq<Doc>, split: string -> seq<string>, j: nat, k: nat)
    requires j < |docs| && k < |split(docs[j].content)|
    ensures TotalSplits(docs[..j], split) + k < |ChunkAll(docs, split)|
    ensures ChunkAll(docs, split)[TotalSplits(docs[..j], split) + k]
            == Doc(split(docs[j].content)[k], docs[j].metadata["chunk_index" := Int(k)])
    decreases |docs|
  {
    var n := |docs| - 1;
    var init := docs[..n];
    var pre := ChunkAll(init, split);
    var last := DocChunks(docs[n], split(docs[n].content));
    assert ChunkAll(docs, split) == pre + last;
    if j == n {
      ChunkAllLength(init, split);
      assert (pre + last)[|pre| + k] == last[k];
    } else {
      assert init[..j] == docs[..j] && init[j] == docs[j];
      ChunkAt(init, split, j, k);
      var p := TotalSplits(docs[..j], split) + k;
      assert (pre + last)[p] == pre[p];
    }
  }

  /** A key other than `chunk_index` that every document has reaches every chunk unchanged. */
  lemma {:induction false} ChunksKeepKey(docs: seq<Doc>, split: string -> seq<string>, key: string, v: Value)
    requires key != "chunk_index"
    requires forall d :: d in docs ==> Get(d.metadata, key) == v
    ensures forall c :: c in ChunkAll(docs, split) ==> Get(c.metadata, key) == v
    decreases |docs|
  {
    if docs != [] {
      var init, last := docs[..|docs| - 1], docs[|docs| - 1];
      assert forall d :: d in init ==> d in docs;
      ChunksKeepKey(init, split, key, v);
      assert last in docs;
    }
  }

  /** `DocumentChunker.chunk`: the nested loops over documents and their pieces. */
  method Chunk(documents: seq<Doc>, split: string -> seq<string>) returns (chunks: seq<Doc>)
    ensures chunks == ChunkAll(documents, split)
    ensures |chunks| == TotalSplits(documents, split)
  {
    chunks := [];
    for i := 0 to |documents|
      invariant chunks == ChunkAll(documents[..i], split)
    {
      var doc := documents[i];
      var texts := split(doc.content);
      for idx := 0 to |texts|
        invariant chunks == ChunkAll(documents[..i], split) + DocChunks(doc, texts)[..idx]
      {
        chunks := chunks + [Doc(texts[idx], doc.metadata["chunk_index" := Int(idx)])];
      }
      assert documents[..i + 1][..i] == documents[..i];
      assert DocChunks(doc, texts)[..|texts|] == DocChunks(doc, texts);
    }
    assert documents[..|documents|] == documents;
    ChunkAllLength(documents, split);
  }
}
