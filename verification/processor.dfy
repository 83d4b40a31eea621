/**
 * The document processor: choose the loader by extension, load, stamp one
 * freshly generated `doc_id` on every loaded document, and chunk.
 * The id generator and the library's raw output are inputs.
 */
module Processor {
  import opened Common
  import opened Loaders
  import opened Chunker

  /** Every document with `doc_id` set to `docId`, overriding any earlier value. */
  function WithDocId(docs: seq<Doc>, docId: string): seq<Doc> {
    seq(|docs|, i requires 0 <= i < |docs| => Doc(docs[i].content, docs[i].metadata["doc_id" := Str(docId)]))
  }

  /** What `process` returns, or the `ValueError` of an unsupported extension. */
  function ProcessSpec(source: string, library: (LoaderKind, string) -> seq<Doc>, docId: string,
                       split: string -> seq<string>): Result<seq<Doc>>
  {
    match DetectLoader(source)
    case Failure(e) => Failure(e)
    case Success(kind) => Success(ChunkAll(WithDocId(Load(kind, source, library(kind, source)), docId), split))
  }

  /** The loop that writes `doc_id` into each loaded document's metadata. */
  method StampDocId(raw: seq<Doc>, docId: string) returns (docs: seq<Doc>)
    ensures docs == WithDocId(raw, docId)
    ensures |docs| == |raw|
    ensures forall i :: 0 <= i < |docs| ==>
      && docs[i].content == raw[i].content
      && Get(docs[i].metadata, "doc_id") == Str(docId)
      && docs[i].metadata.Keys == raw[i].metadata.Keys + {"doc_id"}
  {
    docs := [];
    for i := 0 to |raw|
      invariant docs == WithDocId(raw, docId)[..i]
    {
      docs := docs + [Doc(raw[i].content, raw[i].metadata["doc_id" := Str(docId)])];
    }
    assert WithDocId(raw, docId)[..|raw|] == WithDocId(raw, docId);
  }

  /**
   * `DocumentProcessor.process`: fails, before loading anything, exactly when
   * the extension is unsupported; otherwise every chunk carries `docId`.
   */
  method Process(source: string, library: (LoaderKind, string) -> seq<Doc>, docId: string,
                 split: string -> seq<string>) returns (r: Result<seq<Doc>>)
    ensures r == ProcessSpec(source, library, docId, split)
    ensures r.Failure? <==> DetectLoader(source).Failure?
    ensures r.Success? ==> forall c :: c in r.value ==> Get(c.metadata, "doc_id") == Str(docId)
  {
    var loader := DetectLoader(source);
    if loader.Failure? {
      return Failure(loader.error);
    }
    var raw := Load(loader.value, source, library(loader.value, source));
    var stamped := StampDocId(raw, docId);
    var chunks := Chunk(stamped, split);
    forall d | d in stamped
      ensures Get(d.metadata, "doc_id") == Str(docId)
    {
      var i :| 0 <= i < |stamped| && stamped[i] == d;
    }
    ChunksKeepKey(stamped, split, "doc_id", Str(docId));
    r := Success(chunks);
  }
}
