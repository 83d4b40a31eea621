/**
 * The chat interface: it ingests uploaded files (each one processed, its
 * chunks titled with the file's name, all added to the store in one call),
 * answers questions through the RAG chain, optionally with Wikipedia articles
 * as extra evidence, and deletes a file's chunks by that title.
 * The session state it keeps (the uploaded file names and the
 * store-initialised flag) is folded into the class.
 */
module Ui {
  import opened Common
  import opened Loaders
  import opened Processor
  import opened VectorStore
  import opened TavilySearch
  import RagChain

  /**
   * What ingestion takes from outside: the path `save_uploaded_file` returns
   * for a name, the library's output, the id generator (one id per file, by
   * position in the upload) and the splitter.
   */
  datatype Ingestion = Ingestion(saved: string -> string, library: (LoaderKind, string) -> seq<Doc>,
                                 newId: nat -> string, split: string -> seq<string>)

  predicate NoDuplicates(s: seq<string>) {
    forall i, j :: 0 <= i < j < |s| ==> s[i] != s[j]
  }

  // ---------------------------------------------------------------------------
  // Title stamping and the chunks of each file

  /** Every chunk with `title` set to `title`. */
  function WithTitle(chunks: seq<Doc>, title: string): seq<Doc> {
    seq(|chunks|, i requires 0 <= i < |chunks| => Doc(chunks[i].content, chunks[i].metadata["title" := Str(title)]))
  }

  /** The loop that writes the file name into each chunk's metadata. */
  method StampTitle(chunks: seq<Doc>, title: string) returns (titled: seq<Doc>)
    ensures titled == WithTitle(chunks, title)
    ensures |titled| == |chunks|
    ensures forall i :: 0 <= i < |titled| ==>
      && titled[i].content == chunks[i].content
      && HasTitle(titled[i], title)
      && titled[i].metadata.Keys == chunks[i].metadata.Keys + {"title"}
      && forall key :: key in chunks[i].metadata && key != "title" ==> titled[i].metadata[key] == chunks[i].metadata[key]
  {
    titled := [];
    for i := 0 to |chunks|
      invariant titled == WithTitle(chunks, title)[..i]
    {
      titled := titled + [Doc(chunks[i].content, chunks[i].metadata["title" := Str(title)])];
    }
    assert WithTitle(chunks, title)[..|chunks|] == WithTitle(chunks, title);
  }

  /** The titled chunks of the file at position `j` of an upload, or the processor's error. */
  function FileChunks(name: string, j: nat, ing: Ingestion): (r: Result<seq<Doc>>)
    ensures r.Failure? <==> !Supported(name, ing)
    ensures r.Success? ==> forall c :: c in r.value ==> HasTitle(c, name)
  {
    match ProcessSpec(ing.saved(name), ing.library, ing.newId(j), ing.split)
    case Failure(e) => Failure(e)
    case Success(chunks) => Success(WithTitle(chunks, name))
  }

  /** Whether the processor accepts the file saved under `name`: it depends only on the extension of the path the file is saved under. */
  predicate Supported(name: string, ing: Ingestion) {
    DetectLoader(ing.saved(name)).Success?
  }

  /** For each file of an upload, whether it is supported. */
  function SupportedFlags(names: seq<string>, ing: Ingestion): (ok: seq<bool>)
    ensures |ok| == |names|
    ensures forall i :: 0 <= i < |names| ==> ok[i] == Supported(names[i], ing)
  {
    seq(|names|, i requires 0 <= i < |names| => Supported(names[i], ing))
  }

  /** The position of the first false flag from `from` on, or the number of flags. */
  function FirstFalse(ok: seq<bool>, from: nat): (k: nat)
    requires from <= |ok|
    ensures from <= k <= |ok|
    ensures k < |ok| ==> !ok[k]
    ensures forall j :: from <= j < k ==> ok[j]
    decreases |ok| - from
  {
    if from == |ok| then from
    else if !ok[from] then from
    else FirstFalse(ok, from + 1)
  }

  /** One iteration of the upload loop: save, process, and title the chunks. */
  method ProcessFile(name: string, j: nat, ing: Ingestion) returns (r: Result<seq<Doc>>)
    ensures r.Success? <==> Supported(name, ing)
    ensures r == FileChunks(name, j, ing)
  {
    var path := ing.saved(name);
    var processed := Process(path, ing.library, ing.newId(j), ing.split);
    if processed.Failure? {
      return Failure(processed.error);
    }
    var chunks := StampTitle(processed.value, name);
    return Success(chunks);
  }

  /** What the upload loop leaves: the collected chunks or the first error, and the file list. */
  datatype Ingested = Ingested(result: Result<seq<Doc>>, files: seq<string>)

  /**
   * The loop of `process_documents` over the files, as a function of the
   * upload: each file's titled chunks are appended in order and each new name
   * is listed, until a file fails; the names after it are not looked at.
   */
  function Ingest(names: seq<string>, uploaded: seq<string>, ing: Ingestion): (u: Ingested)
    ensures NoDuplicates(uploaded) ==> NoDuplicates(u.files)
    decreases |names|
  {
    if names == [] then Ingested(Success([]), uploaded)
    else
      var n := |names| - 1;
      var prev := Ingest(names[..n], uploaded, ing);
      if prev.result.Failure? then prev
      else
        match FileChunks(names[n], n, ing)
        case Failure(e) => Ingested(Failure(e), prev.files)
        case Success(chunks) =>
          Ingested(Success(prev.result.value + chunks),
                   if names[n] in prev.files then prev.files else prev.files + [names[n]])
  }

  /** The upload loop itself. */
  method CollectUploads(names: seq<string>, uploaded: seq<string>, ing: Ingestion)
    returns (r: Result<seq<Doc>>, files: seq<string>)
    ensures Ingested(r, files) == Ingest(names, uploaded, ing)
  {
    var allChunks: seq<Doc> := [];
    files := uploaded;
    for i := 0 to |names|
      invariant Ingest(names[..i], uploaded, ing) == Ingested(Success(allChunks), files)
    {
      IngestStep(names, uploaded, ing, i);
      var chunks := ProcessFile(names[i], i, ing);
      if chunks.Failure? {
        IngestStops(names, uploaded, ing, i + 1, |names|);
        assert names[..|names|] == names;
        return Failure(chunks.error), files;
      }
      allChunks := allChunks + chunks.value;
      if names[i] !in files {
        files := files + [names[i]];
      }
    }
    assert names[..|names|] == names;
    r := Success(allChunks);
  }

  /** Once a file has failed, the files after it change nothing. */
  lemma {:induction false} IngestStops(names: seq<string>, uploaded: seq<string>, ing: Ingestion, n: nat, m: nat)
    requires n <= m <= |names|
    requires Ingest(names[..n], uploaded, ing).result.Failure?
    ensures Ingest(names[..m], uploaded, ing) == Ingest(names[..n], uploaded, ing)
    decreases m
  {
    if m > n {
      IngestStops(names, uploaded, ing, n, m - 1);
      IngestStep(names, uploaded, ing, m - 1);
    }
  }

  /** While every file is supported, the loop collects and lists them all. */
  lemma {:induction false} IngestSupportedPrefix(names: seq<string>, uploaded: seq<string>, ing: Ingestion, n: nat)
    requires n <= |names|
    requires forall j :: 0 <= j < n ==> Supported(names[j], ing)
    ensures Ingest(names[..n], uploaded, ing).result.Success?
    ensures Ingest(names[..n], uploaded, ing).files == AddNew(uploaded, names[..n])
    decreases n
  {
    if n > 0 {
      IngestSupportedPrefix(names, uploaded, ing, n - 1);
      IngestSupportedStep(names, uploaded, ing, n - 1);
    }
  }

  /** A supported file after a successful prefix is collected, and its name listed when new. */
  lemma IngestSupportedStep(names: seq<string>, uploaded: seq<string>, ing: Ingestion, n: nat)
    requires n < |names| && Supported(names[n], ing)
    requires Ingest(names[..n], uploaded, ing).result.Success?
    requires Ingest(names[..n], uploaded, ing).files == AddNew(uploaded, names[..n])
    ensures Ingest(names[..n + 1], uploaded, ing).result.Success?
    ensures Ingest(names[..n + 1], uploaded, ing).files == AddNew(uploaded, names[..n + 1])
  {
    IngestStep(names, uploaded, ing, n);
    AddNewStep(uploaded, names, n);
  }

  /** One more file: the loop's step, as `Ingest` takes it. */
  lemma IngestStep(names: seq<string>, uploaded: seq<string>, ing: Ingestion, n: nat)
    requires n < |names|
    ensures var prev := Ingest(names[..n], uploaded, ing);
            var chunks := FileChunks(names[n], n, ing);
            Ingest(names[..n + 1], uploaded, ing)
            == if prev.result.Failure? then prev
               else if chunks.Failure? then Ingested(Failure(chunks.error), prev.files)
               else Ingested(Success(prev.result.value + chunks.value),
                             if names[n] in prev.files then prev.files else prev.files + [names[n]])
  {
    assert names[..n + 1][..n] == names[..n];
  }

  /** Every chunk's `title` is one of `names`. */
  predicate TitledFrom(chunks: seq<Doc>, names: seq<string>) {
    forall c :: c in chunks ==> Get(c.metadata, "title").Str? && Get(c.metadata, "title").s in names
  }

  /** Every chunk the loop collects is titled with the name of one of the files of the upload. */
  lemma {:induction false} IngestTitles(names: seq<string>, uploaded: seq<string>, ing: Ingestion)
    ensures var u := Ingest(names, uploaded, ing);
            u.result.Success? ==> TitledFrom(u.result.value, names)
    decreases |names|
  {
    if names != [] {
      var n := |names| - 1;
      var prev := Ingest(names[..n], uploaded, ing);
      var chunks := FileChunks(names[n], n, ing);
      IngestTitles(names[..n], uploaded, ing);
      if prev.result.Success? && chunks.Success? {
        TitlesAppend(prev.result.value, chunks.value, names[..n], names);
      }
    }
  }

  /** The titles step of `IngestTitles`: the new file's chunks carry the new, last name. */
  lemma TitlesAppend(earlier: seq<Doc>, chunks: seq<Doc>, init: seq<string>, names: seq<string>)
    requires names != [] && init == names[..|names| - 1]
    requires TitledFrom(earlier, init)
    requires forall c :: c in chunks ==> HasTitle(c, names[|names| - 1])
    ensures TitledFrom(earlier + chunks, names)
  {
    assert names == init + [names[|names| - 1]];
  }

  lemma AddNewStep(files: seq<string>, names: seq<string>, n: nat)
    requires n < |names|
    ensures AddNew(files, names[..n + 1])
            == if names[n] in AddNew(files, names[..n]) then AddNew(files, names[..n]) else AddNew(files, names[..n]) + [names[n]]
  {
    assert names[..n + 1][..n] == names[..n];
  }


  /**
   * The upload fails exactly when some file is unsupported, with the first
   * such file's error, and the list then holds the names before it.
   */
  lemma IngestOutcome(names: seq<string>, uploaded: seq<string>, ing: Ingestion)
    ensures var k := FirstUnsupported(names, ing);
            var u := Ingest(names, uploaded, ing);
            && (u.result.Failure? <==> k < |names|)
            && (k < |names| ==> u.result.error == FileChunks(names[k], k, ing).error)
            && u.files == AddNew(uploaded, names[..k])
  {
    var k := FirstUnsupported(names, ing);
    IngestSupportedPrefix(names, uploaded, ing, k);
    if k < |names| {
      IngestFailsAt(names, uploaded, ing, k);
    } else {
      assert names[..|names|] == names;
    }
  }

  /** After a successful prefix, an unsupported file ends the upload with its error and the list unchanged. */
  lemma IngestFailsAt(names: seq<string>, uploaded: seq<string>, ing: Ingestion, k: nat)
    requires k < |names| && !Supported(names[k], ing)
    requires Ingest(names[..k], uploaded, ing).result.Success?
    ensures var u := Ingest(names, uploaded, ing);
            && u.result == Failure(FileChunks(names[k], k, ing).error)
            && u.files == Ingest(names[..k], uploaded, ing).files
  {
    IngestStep(names, uploaded, ing, k);
    assert FileChunks(names[k], k, ing).Failure?;
    IngestStops(names, uploaded, ing, k + 1, |names|);
    assert names[..|names|] == names;
  }

  /** The list only grows: the earlier names stay in front, and every new one is from the upload. */
  lemma IngestFiles(names: seq<string>, uploaded: seq<string>, ing: Ingestion)
    ensures var u := Ingest(names, uploaded, ing);
            && |uploaded| <= |u.files| && u.files[..|uploaded|] == uploaded
            && forall y :: y in u.files ==> y in uploaded || y in names
  {
    var k := FirstUnsupported(names, ing);
    IngestOutcome(names, uploaded, ing);
    assert forall y :: y in names[..k] ==> y in names;
  }

  /** The position of the first unsupported file of an upload, or the number of files. */
  function FirstUnsupported(names: seq<string>, ing: Ingestion): (k: nat)
    ensures k <= |names|
    ensures k < |names| ==> !Supported(names[k], ing)
    ensures forall j :: 0 <= j < k ==> Supported(names[j], ing)
  {
    FirstFalse(SupportedFlags(names, ing), 0)
  }

  // ---------------------------------------------------------------------------
  // The uploaded-file list

  /** The list after appending each name that is not yet in it, in order. */
  function AddNew(files: seq<string>, names: seq<string>): (r: seq<string>)
    ensures |files| <= |r| && r[..|files|] == files
    ensures forall y :: y in r <==> y in files || y in names
    ensures NoDuplicates(files) ==> NoDuplicates(r)
    decreases |names|
  {
    if names == [] then files
    else
      var prev := AddNew(files, names[..|names| - 1]);
      var n := names[|names| - 1];
      assert forall y :: y in names <==> y in names[..|names| - 1] || y == n;
      if n in prev then prev else prev + [n]
  }

  /** The position of the first `x` in `s`. */
  function FirstIndex(s: seq<string>, x: string): (i: nat)
    requires x in s
    ensures i < |s| && s[i] == x && x !in s[..i]
  {
    if s[0] == x then 0
    else
      var i := 1 + FirstIndex(s[1..], x);
      assert s[..i] == [s[0]] + s[1..][..i - 1];
      i
  }

  /** `list.remove(x)`: drop the first occurrence of `x`, keeping the rest in order. */
  function RemoveFirst(s: seq<string>, x: string): (r: seq<string>)
    requires x in s
    ensures r == s[..FirstIndex(s, x)] + s[FirstIndex(s, x) + 1..]
    ensures |r| == |s| - 1
  {
    var i := FirstIndex(s, x);
    s[..i] + s[i + 1..]
  }

  /** On a list without duplicates, removing `x` removes exactly `x`. */
  lemma RemoveFirstNoDuplicates(s: seq<string>, x: string)
    requires x in s && NoDuplicates(s)
    ensures NoDuplicates(RemoveFirst(s, x))
    ensures x !in RemoveFirst(s, x)
    ensures forall y :: y != x ==> (y in RemoveFirst(s, x) <==> y in s)
  {
    var i := FirstIndex(s, x);
    var r := RemoveFirst(s, x);
    assert forall k :: 0 <= k < |r| ==> r[k] == (if k < i then s[k] else s[k + 1]);
    forall y | y in s && y != x
      ensures y in r
    {
      var k :| 0 <= k < |s| && s[k] == y;
      assert r[if k < i then k else k - 1] == y;
    }
  }

  // ---------------------------------------------------------------------------
  // The interface

  class ChatInterface {
    /** The store the chain retrieves from and the uploads are added to. */
    const vectorStore: VectorStoreService
    /** `st.session_state.uploaded_files`. */
    var uploadedFiles: seq<string>
    /** `st.session_state.vector_store_initialized`. */
    var vectorStoreInitialized: bool

    /** The uploaded-file list never names a file twice. */
    ghost predicate Valid()
      reads this
    {
      NoDuplicates(uploadedFiles)
    }

    /** `__init__` with the session state initialised: a store over the index directory, no uploads. */
    constructor (persisted: map<string, Index>)
      ensures fresh(vectorStore)
      ensures vectorStore.chunks == [] && vectorStore.disk == persisted
      ensures vectorStore.store == if INDEX_FILE in persisted then Some(persisted[INDEX_FILE]) else None
      ensures uploadedFiles == [] && !vectorStoreInitialized
      ensures Valid()
    {
      vectorStore := new VectorStoreService(persisted);
      uploadedFiles := [];
      vectorStoreInitialized := false;
    }

    /**
     * `process_documents`: process the files in order, stopping at the first
     * unsupported one; list each new name; add all chunks in one call, and only
     * when there are any; return their number.
     */
    method ProcessDocuments(names: seq<string>, ing: Ingestion) returns (r: Result<nat>)
      modifies this, vectorStore
      ensures var u := Ingest(names, old(uploadedFiles), ing);
              && uploadedFiles == u.files
              && (u.result.Failure? ==>
                    && r == Failure(u.result.error)
                    && unchanged(vectorStore)
                    && vectorStoreInitialized == old(vectorStoreInitialized))
              && (u.result.Success? ==>
                    && r == Success(|u.result.value|)
                    && (u.result.value == [] ==> unchanged(vectorStore) && vectorStoreInitialized == old(vectorStoreInitialized))
                    && (u.result.value != [] ==>
                          && vectorStore.chunks == old(vectorStore.chunks) + u.result.value
                          && vectorStore.Synced()
                          && vectorStore.disk
                             == old(vectorStore.disk)[INDEX_FILE := Index(vectorStore.chunks)][DOCSTORE_FILE := Index(vectorStore.chunks)]
                          && vectorStoreInitialized))
      ensures old(Valid()) ==> Valid()
    {
      var collected, files := CollectUploads(names, uploadedFiles, ing);
      uploadedFiles := files;
      if collected.Failure? {
        return Failure(collected.error);
      }
      var allChunks := collected.value;
      if allChunks != [] {
        vectorStore.AddDocuments(allChunks);
        vectorStoreInitialized := true;
      }
      return Success(|allChunks|);
    }

    /** `answer`: the chain's answer, with the Wikipedia articles as extras only when asked for. */
    method Answer(query: string, webEnabled: bool, includeWikipedia: bool, llm: (string, string) -> string,
                  nearest: (Index, string) -> seq<nat>, tavily: string -> Option<seq<Item>>,
                  wikipedia: string -> seq<Doc>)
      returns (answer: string, sources: seq<string>)
      requires webEnabled ==> ContentIsText(tavily(query))
      ensures var extras := if includeWikipedia then LoadWikipedia(query, wikipedia(query)) else [];
              RagChain.AnswerResult(answer, sources)
              == RagChain.Answer(query, webEnabled, extras, llm, vectorStore.store, nearest, tavily)
    {
      var wikiDocs: seq<Doc> := [];
      if includeWikipedia {
        wikiDocs := LoadWikipedia(query, wikipedia(query));
      }
      var result, _ := RagChain.Run(query, webEnabled, wikiDocs, llm, vectorStore, nearest, tavily);
      return result.answer, result.sources;
    }

    /** `delete_document`: drop the file's chunks from the store, and its name from the list. */
    method DeleteDocument(filename: string)
      modifies this, vectorStore
      ensures vectorStore.chunks == WithoutTitle(old(vectorStore.chunks), filename)
      ensures vectorStore.Synced()
      ensures vectorStore.chunks != [] ==>
        vectorStore.disk == old(vectorStore.disk)[INDEX_FILE := Index(vectorStore.chunks)][DOCSTORE_FILE := Index(vectorStore.chunks)]
      ensures uploadedFiles == if filename in old(uploadedFiles) then RemoveFirst(old(uploadedFiles), filename) else old(uploadedFiles)
      ensures vectorStoreInitialized == old(vectorStoreInitialized)
      ensures old(Valid()) ==> Valid() && filename !in uploadedFiles
    {
      vectorStore.RemoveDocument(filename);
      if filename in uploadedFiles {
        if Valid() {
          RemoveFirstNoDuplicates(uploadedFiles, filename);
        }
        uploadedFiles := RemoveFirst(uploadedFiles, filename);
      }
    }
  }

  /** A single supported file is collected and listed on its own. */
  lemma IngestOne(name: string, ing: Ingestion)
    requires Supported(name, ing)
    ensures Ingest([name], [], ing) == Ingested(Success(FileChunks(name, 0, ing).value), [name])
  {
    assert [name][..0] == [];
    assert [] + FileChunks(name, 0, ing).value == FileChunks(name, 0, ing).value;
  }

  /**
   * Uploading one supported file into an empty store and then deleting it by
   * its name leaves no chunk and no listed file: the title the upload stamps is
   * the key the deletion filters on.
   */
  method UploadThenDelete(name: string, ing: Ingestion) returns (left: seq<Doc>, files: seq<string>)
    requires Supported(name, ing)
    ensures left == [] && files == []
  {
    var ui := new ChatInterface(map[]);
    var chunks := FileChunks(name, 0, ing).value;
    IngestOne(name, ing);
    var r := ui.ProcessDocuments([name], ing);
    assert ui.vectorStore.chunks == chunks && ui.uploadedFiles == [name];
    ui.DeleteDocument(name);
    VectorStore.WithoutAllTitled(chunks, name);
    left := ui.vectorStore.chunks;
    files := ui.uploadedFiles;
  }
}
