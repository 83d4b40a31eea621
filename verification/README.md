# Hybrid retrieval pipeline: a verified model

This project models, in Dafny, the deterministic decision logic of a
question-answering system built on hybrid retrieval. It covers these parts:

- **The query router.** The classifier's free-text label is stripped and
  upper-cased, then parsed into `QueryType` with DOCUMENT as the fallback.
  A policy gate against the caller's web flag turns it into a `QueryRoute`.
- **The RAG chain.** Greetings are short-circuited. Otherwise the chain
  assembles an ordered evidence list: the caller's extras, then the
  retriever's hits, then the web's hits. An empty list is short-circuited to
  a canned answer. Otherwise it renders numbered context blocks and a
  parallel list of citations for one grounded completion.
- **The vector store.** A class whose chunk list and index are rebuilt and
  persisted in full on every add or remove. The index is dropped, and the
  index directory cleared, when the list becomes empty.
- **Ingestion shaping.** The loader is chosen by file extension, loaders
  override metadata keys, one `doc_id` is stamped per processed file, and
  chunks are numbered per document. Web search results are normalised.
- **The chat interface.** Uploads are processed in order and stop at the
  first unsupported file. Chunks are titled with their file's name, which is
  the key deletion filters on. The uploaded-file list stays duplicate-free.

The language model, the similarity ranking, the text splitter, the parsing
libraries, the id generator and the search API are inputs to the model:
arrow-typed parameters or fields of an `Ingestion` value. Each RAG chain
method also returns `calls`, the ordered list of external calls it makes.
Statements such as "the web is searched exactly when…" are made about
that list.

Modules follow the source files: `Common` (metadata values and their
f-string rendering), `QueryRouter`, `VectorStore`, `Retriever`,
`TavilySearch`, `RagChain`, `Loaders`, `Chunker`, `Processor` and `Ui`.
Code that loops or mutates is modelled as methods. Each method is proved
equal to a specification function, and the function's properties are
proved as lemmas.

Two details of the program's own text shape the model.

- **The classifier may answer REFUSE.** The classifier's prompt
  (core/router/query_router.py:26-31) offers four labels: GREETING,
  DOCUMENT, WEB and HYBRID. The enumeration (lines 9-14) also has REFUSE,
  and the parse (lines 46-49) accepts any of its five values. So a reply of
  "refuse" with the web enabled passes through as `(REFUSE, True)`, and the
  web is searched for it (`QueryRouter.ClassifierRefusePassesThrough`,
  `RagChain.RefuseLabelStillSearchesWeb`).
- **A document citation spans two lines.** The citation is a
  triple-quoted f-string (core/chain/rag_chain.py:72-73). Its line break
  and the 21 blanks that indent its second line belong to the string, so
  "Chunk n" sits on a second line (`RagChain.DocCitationSecondLine`).

## Model

| member | source | states |
|---|---|---|
| Common.Get | core/chain/rag_chain.py:61 | `metadata.get(key)`: the stored value when the key is present, None when it is absent |
| Common.NatToString | core/chain/rag_chain.py:62 | the decimal rendering is non-empty, all digits, and has no leading zero except for 0 itself |
| Common.ParseNatToString | core/chain/rag_chain.py:62 | reading the decimal rendering back gives the number |
| Common.NatToStringInjective | core/chain/rag_chain.py:59-70 | distinct block numbers render as distinct strings |
| Common.IntToString | core/chain/rag_chain.py:73 | an integer metadata value renders with a leading minus exactly when it is negative |
| Common.Show | core/chain/rag_chain.py:63 | an f-string renders None as "None" and a string as itself; an integer renders as digits, after a minus sign when negative, that read back as the number |
| QueryRouter.StripStart | core/router/query_router.py:42 | the result is a suffix of the input; everything dropped is whitespace; the result is empty or starts with non-whitespace |
| QueryRouter.StripEnd | core/router/query_router.py:42 | the result is a prefix of the input; everything dropped is whitespace; the result is empty or ends with non-whitespace |
| QueryRouter.Strip | core/router/query_router.py:42 | `strip()` leaves no whitespace at either end |
| QueryRouter.Upper | core/router/query_router.py:43 | `upper()` keeps the length and maps each character to its upper case |
| QueryRouter.UpperChar | core/router/query_router.py:43 | a-z map to A-Z, the dotless i to I, the long s to S, and every other character to itself; so no lower-case ASCII letter remains and whitespace stays whitespace |
| QueryRouter.Normalize | core/router/query_router.py:35-44 | the normalised reply has no whitespace at either end and no lower-case ASCII letter |
| QueryRouter.Parse | core/router/query_router.py:46-49 | a member's value parses to that member; any other string parses to DOCUMENT |
| QueryRouter.ParseLabelOf | core/router/query_router.py:9-14 | every `QueryType` member parses back from its own value |
| QueryRouter.Gate | core/router/query_router.py:51-63 | `allow_web == web_enabled and intent != GREETING`; GREETING gives (GREETING, False); with the web, a non-greeting intent passes unchanged; without it, WEB gives REFUSE, HYBRID gives DOCUMENT, DOCUMENT and REFUSE pass, and WEB or HYBRID never result |
| QueryRouter.RouteLabel | core/router/query_router.py:34-63 | for a raw reply: the allow_web equation; an unrecognised label routes as (DOCUMENT, web_enabled); without the web the route is never WEB or HYBRID |
| QueryRouter.Route | core/router/query_router.py:34-63 | one classifier call with the classifier prompt: `allow_web` holds exactly when the web is enabled and the parsed reply is not GREETING; a GREETING reply gives (GREETING, False); without the web the route is never WEB or HYBRID |
| QueryRouter.StripStartSpacePrefix | core/router/query_router.py:42 | leading whitespace does not change the stripped start |
| QueryRouter.StripEndSpaceSuffix | core/router/query_router.py:42 | trailing whitespace does not change the stripped end |
| QueryRouter.StripStartAppend | core/router/query_router.py:42 | after the first non-blank character, the rest is kept as it is |
| QueryRouter.StripStartEmpty | core/router/query_router.py:42 | stripping leaves nothing exactly when the string is all whitespace |
| QueryRouter.StripIgnoresPadding | core/router/query_router.py:42 | whitespace before and after a label does not change its strip |
| QueryRouter.RouteIgnoresPadding | core/router/query_router.py:35-63 | whitespace around the classifier's reply never changes the route |
| QueryRouter.StripUnpadded | core/router/query_router.py:42 | a string without whitespace at either end is its own strip |
| QueryRouter.PaddedLowerCaseWeb | core/router/query_router.py:35-63 | `" web\n"` routes exactly as `"WEB"`: (WEB, True) with the web, (REFUSE, False) without |
| QueryRouter.StripPaddedWord | core/router/query_router.py:42 | leading whitespace before an unpadded word is all that strip removes |
| QueryRouter.NormalizePaddedRefuse | core/router/query_router.py:35-44 | any whitespace then `"refuse"` normalises to `"REFUSE"` |
| QueryRouter.ClassifierRefusePassesThrough | core/router/query_router.py:46-55 | a classifier reply of "refuse" is accepted as REFUSE; with the web enabled it routes as (REFUSE, True) |
| QueryRouter.LabelCapitals | core/router/query_router.py:9-14 | every member's value is a non-empty word of capitals |
| QueryRouter.UpperAnyCase | core/router/query_router.py:43 | `upper()` of any casing of a word of capitals is that word |
| QueryRouter.NormalizeAnyCase | core/router/query_router.py:35-44 | any casing of a non-empty word of capitals normalises to the word |
| QueryRouter.AnyCaseLabelRoutes | core/router/query_router.py:34-63 | a reply spelling a member's value in any mix of cases, with any surrounding whitespace, parses to that member and routes as the gate says for it |
| VectorStore.HasTitle | core/vectorstore/store.py:28 | a chunk matches a name exactly when it has a `title` key holding that name; a chunk without a title matches nothing |
| VectorStore.WithoutTitle | core/vectorstore/store.py:27-29 | a chunk is kept exactly when it was there and its title is not the removed one; the result is no longer than the input |
| VectorStore.WithoutTitleAppend | core/vectorstore/store.py:27-29 | the filter keeps the original order: it distributes over concatenation |
| VectorStore.WithoutAbsentTitle | core/vectorstore/store.py:27-29 | removing a title no chunk carries changes nothing |
| VectorStore.WithoutTitleIdempotent | core/vectorstore/store.py:26-30 | removing the same title twice equals removing it once |
| VectorStore.WithoutAllTitled | core/vectorstore/store.py:27-29 | removing a title every chunk carries leaves nothing |
| VectorStore.RemoveAddedTitle | core/vectorstore/store.py:22-30 | removing a batch's title after adding the batch removes all of it, and from the rest only chunks with that title |
| VectorStore.VectorStoreService.constructor | core/vectorstore/store.py:14-20 | an empty chunk list; the index is loaded from the directory when `index.faiss` is there, so it may exist while the list is empty |
| VectorStore.VectorStoreService.Synced | core/vectorstore/store.py:32-51 | in sync, `index.faiss` is on disk exactly when there is an index, and holds that index |
| VectorStore.VectorStoreService.LoadIndex | core/vectorstore/store.py:53-62 | the index becomes the saved one when `index.faiss` exists and is otherwise unchanged |
| VectorStore.VectorStoreService.AddDocuments | core/vectorstore/store.py:22-24 | the list becomes the old list followed by the new chunks; index, list and directory are in sync; both index files hold the new index |
| VectorStore.VectorStoreService.RemoveDocument | core/vectorstore/store.py:26-30 | the list becomes the filtered old list; index, list and directory are in sync |
| VectorStore.VectorStoreService.RebuildAndPersist | core/vectorstore/store.py:32-51 | the list is unchanged; no index and an empty directory exactly when the list is empty; otherwise the index is built from exactly the list and saved |
| VectorStore.VectorStoreService.SaveLocal | core/vectorstore/store.py:51 | both index files are overwritten with the index and every other file stays |
| VectorStore.VectorStoreService.ClearDisk | core/vectorstore/store.py:64-66 | deleting each listed file, one at a time, leaves the directory empty |
| VectorStore.VectorStoreService.GetStore | core/vectorstore/store.py:68-71 | fails with "Vector store is empty" exactly when there is no index, and otherwise returns the index unchanged |
| VectorStore.AddAddRemoveScenario | core/vectorstore/store.py:22-51 | adding two chunks titled A, then one titled B, then removing A leaves exactly the B chunk, indexed |
| VectorStore.RestartThenAdd | core/vectorstore/store.py:14-24 | after a restart the persisted index is loaded but the next add indexes only the new chunks |
| Retriever.BuildRetriever | core/retriever/retriever.py:10-12 | fails exactly when `get_store` fails, and otherwise uses the current index |
| Retriever.Nearest | core/retriever/retriever.py:12 | at most `k` hits, each a stored chunk |
| Retriever.NearestInRange | core/retriever/retriever.py:12 | when every ranked position is stored, the hits are the first `k` ranked chunks, in rank order |
| Retriever.Invoke | core/retriever/retriever.py:12 | at most TOP_K hits, all from the index |
| TavilySearch.Search | tools/tavily_search.py:19-40 | a missing or empty result list gives no documents; otherwise one document per result, in order, with the content defaulting to "", the title to "Web Result", the URL possibly None, and `source_type` "web" and `source_id` "tavily" on every document |
| Loaders.LastIndexOf | core/document/loaders.py:70 | the position of the last occurrence, with no occurrence after it, or -1 |
| Loaders.Name | core/document/loaders.py:70 | a path's name has no slash and is not "." |
| Loaders.Suffix | core/document/loaders.py:70 | the suffix is empty, or a dot and at least one further character with no other dot, and it ends the name |
| Loaders.Lower | core/document/loaders.py:70 | `lower()` keeps the length and lower-cases each ASCII capital |
| Loaders.DetectLoader | core/document/loaders.py:69-77 | the PDF loader exactly for a lower-cased suffix ".pdf"; the text loader exactly for ".txt" or ".md"; otherwise the `ValueError` with the path in its message |
| Loaders.NameAfterLastSlash | core/document/loaders.py:70 | the name is what follows the last slash when that is neither empty nor "." |
| Loaders.NameWithoutSlash | core/document/loaders.py:70 | a path without slashes is its own name |
| Loaders.SuffixFromDot | core/document/loaders.py:70 | the suffix starts at the name's last dot, unless that dot is first or last in the name |
| Loaders.PdfInAnyCase | core/document/loaders.py:70-73 | a file ending in any capitalisation of ".pdf" gets the PDF loader |
| Loaders.DotFileIsUnsupported | core/document/loaders.py:70-77 | a name whose only dot is its first character has no suffix and is refused |
| Loaders.Load | core/document/loaders.py:14-47 | one record per library document, in order, with its content; its metadata keeps the library's keys, and `source_type` and `source` override them |
| Loaders.LoadWikipedia | core/document/loaders.py:50-66 | one record per article, whose metadata is exactly `source_type` "wikipedia", `source` the query, `title`, and `url` from the library's "source" |
| Chunker.ChunkAllLength | core/document/chunker.py:16-32 | the number of chunks is the total number of pieces the splitter makes |
| Chunker.ChunkAllAppend | core/document/chunker.py:19-31 | chunking a concatenation concatenates the chunkings: document order is kept |
| Chunker.ChunkAt | core/document/chunker.py:19-31 | piece `k` of document `j` comes after all earlier documents' pieces; its content is that piece; its metadata is the document's with `chunk_index` set to `k`, restarting at 0 per document |
| Chunker.ChunksKeepKey | core/document/chunker.py:25-28 | a metadata key other than `chunk_index` that every document has reaches every chunk unchanged |
| Chunker.Chunk | core/document/chunker.py:16-32 | the nested loops produce exactly the specified chunking, with as many chunks as pieces |
| Processor.StampDocId | core/document/processor.py:16-18 | every document keeps its content and gets `doc_id`, overriding any earlier value |
| Processor.Process | core/document/processor.py:12-20 | fails exactly when the extension is unsupported, before loading; otherwise chunks the loaded documents, and every chunk carries the one `doc_id` |
| RagChain.Kind | core/chain/rag_chain.py:60-74 | web exactly for `source_type` "web", Wikipedia exactly for "wikipedia", document for anything else, including a missing key |
| RagChain.Block | core/chain/rag_chain.py:62-70 | a block opens with its kind's label opening, then its number, and closes with "] " and the item's text |
| RagChain.Citation | core/chain/rag_chain.py:63-74 | a citation opens with the tag of its item's kind, `[Web] `, `[Wikipedia] ` or `[Doc] `, immediately followed by the rendered title; a web or Wikipedia citation then closes with " - " and the rendered URL, a document citation with the two-line break and the rendered chunk index, and nothing else lies between |
| RagChain.Numbered | core/chain/rag_chain.py:59 | one rendering per item, item `i` numbered `i + 1` |
| RagChain.NumberedStep | core/chain/rag_chain.py:59-74 | one more item adds one rendering, numbered after the others |
| RagChain.Blocks | core/chain/rag_chain.py:56-74 | one block per item; block `i` is item `i`'s block numbered `i + 1` |
| RagChain.Sources | core/chain/rag_chain.py:56-74 | one citation per item, in evidence order |
| RagChain.Join | core/chain/rag_chain.py:76 | joining no parts gives "", and one part gives that part |
| RagChain.JoinAppend | core/chain/rag_chain.py:76 | joining two non-empty lists is joining each and putting one separator between them |
| RagChain.UserMessage | core/chain/rag_chain.py:76-86 | the human message is exactly "Context:\n", the joined blocks, "\n\nQuestion:\n" and the query: it opens with the first two, closes with the last two, and its length is the sum of the four |
| RagChain.DocumentHits | core/chain/rag_chain.py:38-44 | at most TOP_K hits, all from the index; only for DOCUMENT or HYBRID routes with an index |
| RagChain.WebHits | core/chain/rag_chain.py:46-48 | nothing unless the caller enabled the web; every hit is a web item |
| RagChain.Evidence | core/chain/rag_chain.py:33-48 | the extras, then the document hits, then the web hits, each kept in its own order |
| RagChain.Grounded | core/chain/rag_chain.py:50-90 | as many sources as evidence items |
| RagChain.Lookups | core/chain/rag_chain.py:38-48 | a non-greeting route makes at most three lookups |
| RagChain.Completion | core/chain/rag_chain.py:50-88 | at most one grounded completion, made exactly when there is evidence, and nothing but completions |
| RagChain.Answer | core/chain/rag_chain.py:17-90 | `run`'s result: no sources for a greeting; otherwise one source per evidence item, and the canned answer when there is none |
| RagChain.Calls | core/chain/rag_chain.py:17-90 | `run` makes between one and five calls, the first always the classifier's; a greeting makes exactly two |
| RagChain.Gather | core/chain/rag_chain.py:33-48 | the evidence list is built as specified, and the retriever and web calls are made as specified |
| RagChain.Render | core/chain/rag_chain.py:60-74 | one loop iteration yields the item's block and its citation |
| RagChain.RenderAll | core/chain/rag_chain.py:56-74 | the loop yields the numbered blocks and the parallel citations |
| RagChain.Respond | core/chain/rag_chain.py:50-90 | the canned answer with no completion when there is no evidence, otherwise the one grounded completion |
| RagChain.Run | core/chain/rag_chain.py:17-90 | `run` returns the specified answer and makes exactly the specified calls |
| RagChain.GreetingShortCircuit | core/chain/rag_chain.py:21-31 | a greeting is answered with no sources by one short completion after the classifier's, with no retrieval and no web search |
| RagChain.LookupsMade | core/chain/rag_chain.py:38-48 | the retriever is built exactly for DOCUMENT and HYBRID; searched exactly when there is also an index; the web is searched exactly when enabled |
| RagChain.NonGreetingCalls | core/chain/rag_chain.py:33-90 | a non-greeting run calls the classifier, then makes its lookups, then at most the grounded completion |
| RagChain.WebSearchIffEnabled | core/chain/rag_chain.py:46-48 | the web is searched exactly when the caller enabled it and the route is not a greeting, whatever `allow_web` and the route type are |
| RagChain.RetrieverOnlyForDocuments | core/chain/rag_chain.py:38-44 | the retriever is built exactly for DOCUMENT and HYBRID routes |
| RagChain.RefuseLabelStillSearchesWeb | core/chain/rag_chain.py:46-48 | a classifier answering "refuse" with the web enabled gives the route (REFUSE, True), and the web is searched |
| RagChain.EmptyStoreSwallowed | core/chain/rag_chain.py:39-44 | with an empty store, a document route's evidence is the extras and the web hits; the failure is not surfaced |
| RagChain.EmptyStoreNoSearch | core/chain/rag_chain.py:39-44 | with an empty store, the retriever is built but no similarity search is made |
| RagChain.EvidenceWithoutStore | core/chain/rag_chain.py:33-48 | without a store, the evidence is the extras followed by the web hits |
| RagChain.NoEvidenceNoGroundedCall | core/chain/rag_chain.py:50-54 | with no evidence, the answer is the canned string with no sources, and the classifier's is the only completion |
| RagChain.SourcesMatchEvidence | core/chain/rag_chain.py:56-74 | as many sources as evidence items; source `i` is item `i`'s citation and opens with the tag of its kind |
| RagChain.DocCitationSecondLine | core/chain/rag_chain.py:71-73 | a document citation continues, after title and " -", with a newline, 21 blanks and "Chunk " |
| RagChain.BlockIsLabelled | core/chain/rag_chain.py:62-70 | a block is its label, a blank, then the item's text |
| RagChain.LabelNumberReadsBack | core/chain/rag_chain.py:59-70 | the number inside a label is all digits and reads back as the block's number |
| RagChain.OpeningHasOneBlank | core/chain/rag_chain.py:62-70 | every label opening ends with its only blank |
| RagChain.LabelsDistinct | core/chain/rag_chain.py:59-70 | blocks with different numbers have different labels, whatever their kinds |
| RagChain.BlockNumbering | core/chain/rag_chain.py:56-76 | block `i` is labelled with number `i + 1`, and no two blocks share a label |
| Ui.StampTitle | ui/chat_interface.py:26-27 | every chunk keeps its content and its other metadata, and gets `title` set to the file's name |
| Ui.FileChunks | ui/chat_interface.py:23-27 | a file fails exactly when it is unsupported; otherwise each of its chunks is titled with its name |
| Ui.SupportedFlags | ui/chat_interface.py:21-24 | one flag per file, telling whether its extension is supported |
| Ui.ProcessFile | ui/chat_interface.py:23-27 | one loop iteration succeeds exactly for a supported file, and yields its titled chunks |
| Ui.Ingest | ui/chat_interface.py:19-32 | a duplicate-free file list stays duplicate-free |
| Ui.CollectUploads | ui/chat_interface.py:19-32 | the loop yields exactly the specified chunks or error, and file list |
| Ui.IngestStep | ui/chat_interface.py:21-32 | one more file: nothing after a failure; otherwise the file's error, or its chunks appended and its name listed when new |
| Ui.IngestStops | ui/chat_interface.py:21-24 | once a file has failed, the files after it change nothing |
| Ui.IngestSupportedPrefix | ui/chat_interface.py:21-32 | while every file is supported, the loop succeeds and lists each new name in order |
| Ui.IngestSupportedStep | ui/chat_interface.py:21-32 | after a successful prefix, a supported file keeps the upload successful and the list grows by its name when new |
| Ui.IngestTitles | ui/chat_interface.py:24-29 | every collected chunk is titled with the name of one of the uploaded files |
| Ui.AddNewStep | ui/chat_interface.py:31-32 | one more name is appended only when it is not already listed |
| Ui.IngestOutcome | ui/chat_interface.py:21-32 | the upload fails exactly when some file is unsupported, with the first such file's error; the list then holds the earlier names |
| Ui.IngestFailsAt | ui/chat_interface.py:21-32 | after a successful prefix, an unsupported file ends the upload with its own error and the file list as the prefix left it |
| Ui.IngestFiles | ui/chat_interface.py:31-32 | the file list only grows: earlier names stay in front, and every new one comes from the upload |
| Ui.FirstUnsupported | ui/chat_interface.py:21-24 | the first unsupported file's position, all before it supported, or the number of files |
| Ui.AddNew | ui/chat_interface.py:31-32 | the old list stays in front; membership is the old list's or the names'; no duplicates are introduced |
| Ui.FirstIndex | ui/chat_interface.py:53 | the first position holding the name |
| Ui.RemoveFirst | ui/chat_interface.py:53 | `list.remove` drops exactly the first occurrence, keeping the rest in order |
| Ui.RemoveFirstNoDuplicates | ui/chat_interface.py:52-53 | on a duplicate-free list, removal keeps it duplicate-free, removes the name, and keeps every other name |
| Ui.ChatInterface.constructor | ui/chat_interface.py:11-16 | a fresh store over the index directory, no uploads, not initialised |
| Ui.ChatInterface.ProcessDocuments | ui/chat_interface.py:18-38 | the file list is as the loop leaves it; a failure changes neither store nor flag; otherwise it returns the chunk count, and only a non-empty batch is added, once, setting the flag; a duplicate-free list stays so |
| Ui.ChatInterface.Answer | ui/chat_interface.py:40-46 | the chain's answer and sources, with the Wikipedia documents as extras only when asked for, otherwise none |
| Ui.ChatInterface.DeleteDocument | ui/chat_interface.py:48-53 | the store drops the file's chunks; the name is removed from the list if present, the other entries stay, and the flag is unchanged |
| Ui.IngestOne | ui/chat_interface.py:18-38 | a single supported file is collected and listed on its own |
| Ui.UploadThenDelete | ui/chat_interface.py:18-53 | uploading one supported file into an empty store, then deleting it by name, leaves no chunk and no listed file |

## Left out

- File I/O in the chat interface is not modelled. `save_uploaded_file` and `delete_uploaded_file` (ui/components.py) are not part of this model. The path a name is saved under is an input (`Ingestion.saved`), and deleting the upload's file is not modelled.
- `os.makedirs` for the index and upload directories is left out. So are the `print` calls.
- The index directory is a map from file name to the index it holds. `save_local` writes `index.faiss` and `index.pkl`; the FAISS file formats are not modelled.
- Embeddings, FAISS index construction and nearest-neighbour ranking are floating-point library work. The index is the chunk sequence it was built from. The ranking is an input: stored positions, most similar first.
- The language model is an input function of the system prompt and the human message. Its replies are uninterpreted.
- `RecursiveCharacterTextSplitter.split_text` is an input. Its window and overlap, CHUNK_SIZE (800) and CHUNK_OVERLAP (150) in config/settings.py:19-20, only configure that function, so they do not appear in the model.
- The raw output of PyPDFLoader, TextLoader and WikipediaLoader is an input. Wikipedia's `load_max_docs=5` is the library's business and is not modelled.
- `uuid4()` is an input. One id is drawn per processed file, indexed by the file's position in the upload.
- The language-model calls are total functions in the model: the classifier call (core/router/query_router.py:35-44) and both completions of `run` (core/chain/rag_chain.py:23-30, 77-88) always return a reply, while in the source an exception from the provider propagates to the caller.
- Building and saving the index are total in the model: a failure of the embedding model, of `FAISS.from_documents` or of `save_local` in `_rebuild_and_persist` (core/vectorstore/store.py:32-51) is not modelled, and the source lets it propagate.
- Loading the saved index is total in the model: `load_local` (core/vectorstore/store.py:53-62) is modelled as reading `index.faiss` only, so a missing or corrupt `index.pkl`, on which the source raises, is not modelled.
- The similarity search is total in the model: `Retriever.Nearest` cannot fail, so a RuntimeError raised inside `retriever.invoke`, which the `try` at core/chain/rag_chain.py:40-44 would also swallow, is not modelled.
- The Tavily HTTP call is an input: None for a falsy reply or one without results, otherwise the result dictionaries. Setting the API key in the environment is left out. Search failures (network, timeout) are not modelled; the source does not catch them.
- TavilySearch.Search: requires a present "content" to be a string, instead of modelling the error the document constructor raises otherwise.
- RagChain.Run: requires the same of the web reply when the web is enabled, for the same reason.
- Ui.ChatInterface.Answer: requires the same of the web reply when the web is enabled, for the same reason.
- Loaders.Lower: maps only ASCII capitals. No other character's lower case can produce ".pdf", ".txt" or ".md".
- QueryRouter.Upper: maps a-z, the dotless i and the long s, the only characters whose upper case is a single ASCII letter. Expansions such as ligatures cannot form a label.
- Metadata values are strings, integers or None, the only kinds the pipeline writes. Other library metadata types render only through `Show`'s three cases.
- The Streamlit session state is folded into the `ChatInterface` class as two fields. Chat history, widgets, reruns, app.py and ui/components.py are not part of this model.
- TOP_K (4, config/settings.py:23) is the constant `Retriever.TOP_K`. The other settings (providers, model names, directories) are not part of this model.
- The embedding and language-model provider factories and their base classes are not part of this model.
- The chat interface's Wikipedia loader call is an input function from the query to the library's articles.
