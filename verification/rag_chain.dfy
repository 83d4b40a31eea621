/**
 * The RAG chain: route the query, short-circuit greetings, assemble the
 * evidence (caller extras, then document hits, then web hits), short-circuit
 * an empty evidence list, and otherwise render numbered context blocks and a
 * parallel list of citations for one grounded completion.
 * The language model, the similarity ranking and the web search are inputs;
 * `calls` records, in order, every call the chain makes to them.
 */
module RagChain {
  import opened Common
  import opened QueryRouter
  import opened VectorStore
  import opened Retriever
  import opened TavilySearch

  const GREETING_PROMPT: string := "You are a helpful assistant. Keep replies short."
  const GROUNDED_PROMPT: string :=
    "Answer ONLY using the provided context. "
    + "Cite sources using [Doc X] or [Web X]. "
    + "If the answer is not present, say you don't know."
  const NO_INFORMATION: string := "I don't have enough information to answer this question."
  /** What separates a document citation's title from its chunk index: a line break and the indentation of the source line. */
  const DOC_CHUNK_BREAK: string := " -\n                     Chunk "

  /** The `{"answer", "sources"}` dictionary `run` returns. */
  datatype AnswerResult = AnswerResult(answer: string, sources: seq<string>)

  /** An external call: a completion, building the retriever, a similarity search, a web search. */
  datatype Call =
    | Complete(system: string, human: string)
    | BuildStore
    | Retrieve(query: string)
    | WebSearch(query: string)

  // ---------------------------------------------------------------------------
  // Rendering of one evidence item

  /** How an item is labelled and cited. */
  datatype SourceKind = WebSource | WikipediaSource | DocSource

  /** The kind of an item, by its `source_type`: everything but "web" and "wikipedia" is a document. */
  function Kind(d: Doc): (k: SourceKind)
    ensures k == WebSource <==> Get(d.metadata, "source_type") == Str("web")
    ensures k == WikipediaSource <==> Get(d.metadata, "source_type") == Str("wikipedia")
    ensures k == DocSource <==> Get(d.metadata, "source_type") !in {Str("web"), Str("wikipedia")}
  {
    var t := Get(d.metadata, "source_type");
    if t == Str("web") then WebSource else if t == Str("wikipedia") then WikipediaSource else DocSource
  }

  /** The opening of a context block, up to its number. */
  function Opening(k: SourceKind): string {
    match k
    case WebSource => "[Web "
    case WikipediaSource => "[Wikipedia "
    case DocSource => "[Doc "
  }

  /** `[Web n]`, `[Wikipedia n]` or `[Doc n]`. */
  function Label(n: nat, d: Doc): string {
    Opening(Kind(d)) + NatToString(n) + "]"
  }

  /** Context block number `n`: its label, a blank, the item's text. */
  function Block(n: nat, d: Doc): (r: string)
    ensures StartsWith(r, Opening(Kind(d))) && StartsWith(r[|Opening(Kind(d))|..], NatToString(n))
    ensures EndsWith(r, "] " + d.content)
  {
    Framed(Opening(Kind(d)), NatToString(n), "] ", d.content);
    Opening(Kind(d)) + NatToString(n) + "] " + d.content
  }

  /** The opening of a citation. */
  function CiteTag(k: SourceKind): string {
    match k
    case WebSource => "[Web] "
    case WikipediaSource => "[Wikipedia] "
    case DocSource => "[Doc] "
  }

  /**
   * The citation of an item: title and URL for web and Wikipedia items; title
   * and chunk index for documents, broken over two lines, the second indented.
   */
  function Citation(d: Doc): (r: string)
    ensures StartsWith(r, CiteTag(Kind(d)))
    ensures StartsWith(r[|CiteTag(Kind(d))|..], Show(Get(d.metadata, "title")))
    ensures Kind(d) != DocSource ==>
              && EndsWith(r, " - " + Show(Get(d.metadata, "url")))
              && |r| == |CiteTag(Kind(d))| + |Show(Get(d.metadata, "title"))| + 3 + |Show(Get(d.metadata, "url"))|
    ensures Kind(d) == DocSource ==>
              && EndsWith(r, DOC_CHUNK_BREAK + Show(Get(d.metadata, "chunk_index")))
              && |r| == 6 + |Show(Get(d.metadata, "title"))| + |DOC_CHUNK_BREAK| + |Show(Get(d.metadata, "chunk_index"))|
  {
    var m := d.metadata;
    if Kind(d) == DocSource then
      Framed("[Doc] ", Show(Get(m, "title")), DOC_CHUNK_BREAK, Show(Get(m, "chunk_index")));
      "[Doc] " + Show(Get(m, "title")) + DOC_CHUNK_BREAK + Show(Get(m, "chunk_index"))
    else
      Framed(CiteTag(Kind(d)), Show(Get(m, "title")), " - ", Show(Get(m, "url")));
      CiteTag(Kind(d)) + Show(Get(m, "title")) + " - " + Show(Get(m, "url"))
  }

  /** Each evidence item rendered with its number, counted from 1. */
  function Numbered(ev: seq<Doc>, render: (nat, Doc) -> string): (r: seq<string>)
    ensures |r| == |ev|
    ensures forall i :: 0 <= i < |ev| ==> r[i] == render(i + 1, ev[i])
  {
    seq(|ev|, i requires 0 <= i < |ev| => render(i + 1, ev[i]))
  }

  /** One more item adds its rendering, numbered after the others. */
  lemma NumberedStep(ev: seq<Doc>, render: (nat, Doc) -> string, i: nat)
    requires i < |ev|
    ensures Numbered(ev[..i + 1], render) == Numbered(ev[..i], render) + [render(i + 1, ev[i])]
  {
    var a, b := Numbered(ev[..i + 1], render), Numbered(ev[..i], render) + [render(i + 1, ev[i])];
    forall k | 0 <= k < |a|
      ensures a[k] == b[k]
    {
      assert ev[..i + 1][k] == ev[k];
      if k < i {
        assert ev[..i][k] == ev[k];
      }
    }
  }

  /** The context blocks, numbered from 1. */
  function Blocks(ev: seq<Doc>): (r: seq<string>)
    ensures |r| == |ev|
    ensures forall i :: 0 <= i < |ev| ==> r[i] == Block(i + 1, ev[i])
  {
    Numbered(ev, Block)
  }

  /** The citation of an item, whatever its number. */
  function NumberedCitation(n: nat, d: Doc): string {
    Citation(d)
  }

  /** The citations, one per evidence item, in evidence order. */
  function Sources(ev: seq<Doc>): (r: seq<string>)
    ensures |r| == |ev|
    ensures forall i :: 0 <= i < |ev| ==> r[i] == Citation(ev[i])
  {
    Numbered(ev, NumberedCitation)
  }

  /** `sep.join(parts)`. */
  function Join(parts: seq<string>, sep: string): (r: string)
    ensures parts == [] ==> r == []
    ensures |parts| == 1 ==> r == parts[0]
    decreases |parts|
  {
    if parts == [] then []
    else if |parts| == 1 then parts[0]
    else Join(parts[..|parts| - 1], sep) + sep + parts[|parts| - 1]
  }

  /** Joining two non-empty lists puts one separator between the two joins. */
  lemma {:induction false} JoinAppend(a: seq<string>, b: seq<string>, sep: string)
    requires a != [] && b != []
    ensures Join(a + b, sep) == Join(a, sep) + sep + Join(b, sep)
    decreases |b|
  {
    var ab, last := a + b, b[|b| - 1];
    assert ab[|ab| - 1] == last;
    if |b| == 1 {
      assert ab[..|ab| - 1] == a;
      assert Join(ab, sep) == Join(a, sep) + sep + last;
    } else {
      var init := b[..|b| - 1];
      assert ab[..|ab| - 1] == a + init;
      JoinAppend(a, init, sep);
      var x, y := Join(a, sep), Join(init, sep);
      calc {
        Join(ab, sep);
        Join(a + init, sep) + sep + last;
        x + sep + y + sep + last;
        { assert x + sep + y + sep + last == x + sep + (y + sep + last); }
        x + sep + (y + sep + last);
        x + sep + Join(b, sep);
      }
    }
  }

  /** The human message of the grounded completion: the joined context first, the question last. */
  function UserMessage(ev: seq<Doc>, query: string): (r: string)
    ensures StartsWith(r, "Context:\n") && StartsWith(r[|"Context:\n"|..], Join(Blocks(ev), "\n\n"))
    ensures EndsWith(r, "\n\nQuestion:\n" + query)
    ensures |r| == |"Context:\n"| + |Join(Blocks(ev), "\n\n")| + |"\n\nQuestion:\n"| + |query|
  {
    Framed("Context:\n", Join(Blocks(ev), "\n\n"), "\n\nQuestion:\n", query);
    "Context:\n" + Join(Blocks(ev), "\n\n") + "\n\nQuestion:\n" + query
  }

  // ---------------------------------------------------------------------------
  // Evidence assembly

  /** The retriever's hits: only for DOCUMENT and HYBRID routes, and nothing when the store is empty. */
  function DocumentHits(t: QueryType, store: Option<Index>, nearest: (Index, string) -> seq<nat>,
                        query: string): (hits: seq<Doc>)
    ensures |hits| <= TOP_K
    ensures hits != [] ==> t in {Document, Hybrid} && store.Some?
    ensures store.Some? ==> forall d :: d in hits ==> d in store.value.docs
  {
    if t in {Document, Hybrid} && store.Some? then Invoke(store.value, nearest(store.value, query)) else []
  }

  /** The web search's documents: only when the caller enabled the web. */
  function WebHits(webEnabled: bool, tavily: string -> Option<seq<Item>>, query: string): (hits: seq<Doc>)
    requires webEnabled ==> ContentIsText(tavily(query))
    ensures !webEnabled ==> hits == []
    ensures forall d :: d in hits ==> Get(d.metadata, "source_type") == Str("web")
  {
    if webEnabled then WebDocs(tavily(query)) else []
  }

  /** The evidence list of a non-greeting route, in the order it is assembled. */
  function Evidence(t: QueryType, webEnabled: bool, extras: seq<Doc>, store: Option<Index>,
                    nearest: (Index, string) -> seq<nat>, tavily: string -> Option<seq<Item>>,
                    query: string): (ev: seq<Doc>)
    requires webEnabled ==> ContentIsText(tavily(query))
    ensures |ev| == |extras| + |DocumentHits(t, store, nearest, query)| + |WebHits(webEnabled, tavily, query)|
    ensures ev[..|extras|] == extras
    ensures ev[|extras|..|extras| + |DocumentHits(t, store, nearest, query)|] == DocumentHits(t, store, nearest, query)
    ensures ev[|extras| + |DocumentHits(t, store, nearest, query)|..] == WebHits(webEnabled, tavily, query)
  {
    extras + DocumentHits(t, store, nearest, query) + WebHits(webEnabled, tavily, query)
  }

  /** The answer once the evidence is known: canned when there is none, grounded otherwise. */
  function Grounded(llm: (string, string) -> string, query: string, ev: seq<Doc>): (r: AnswerResult)
    ensures |r.sources| == |ev|
  {
    if ev == [] then AnswerResult(NO_INFORMATION, [])
    else AnswerResult(llm(GROUNDED_PROMPT, UserMessage(ev, query)), Sources(ev))
  }

  /** The retriever and web calls of a non-greeting route. */
  function Lookups(t: QueryType, store: Option<Index>, webEnabled: bool, query: string): (r: seq<Call>)
    ensures |r| <= 3
  {
    (if t in {Document, Hybrid} then [BuildStore] + (if store.Some? then [Retrieve(query)] else []) else [])
    + (if webEnabled then [WebSearch(query)] else [])
  }

  /** The grounded completion, made only when there is evidence. */
  function Completion(query: string, ev: seq<Doc>): (r: seq<Call>)
    ensures |r| <= 1 && (r == [] <==> ev == [])
    ensures forall c :: c in r ==> c.Complete?
  {
    if ev == [] then [] else [Complete(GROUNDED_PROMPT, UserMessage(ev, query))]
  }

  /** What `run` returns. */
  function Answer(query: string, webEnabled: bool, extras: seq<Doc>, llm: (string, string) -> string,
                  store: Option<Index>, nearest: (Index, string) -> seq<nat>,
                  tavily: string -> Option<seq<Item>>): (r: AnswerResult)
    requires webEnabled ==> ContentIsText(tavily(query))
    ensures var t := Route(llm, query, webEnabled).queryType;
            t == Greeting ==> r.sources == []
    ensures var t := Route(llm, query, webEnabled).queryType;
            t != Greeting ==> |r.sources| == |Evidence(t, webEnabled, extras, store, nearest, tavily, query)|
    ensures var t := Route(llm, query, webEnabled).queryType;
            t != Greeting && Evidence(t, webEnabled, extras, store, nearest, tavily, query) == [] ==>
              r.answer == NO_INFORMATION
  {
    var route := Route(llm, query, webEnabled);
    if route.queryType == Greeting then AnswerResult(llm(GREETING_PROMPT, query), [])
    else Grounded(llm, query, Evidence(route.queryType, webEnabled, extras, store, nearest, tavily, query))
  }

  /** The calls `run` makes, in order, starting with the classifier's. */
  function Calls(query: string, webEnabled: bool, extras: seq<Doc>, llm: (string, string) -> string,
                 store: Option<Index>, nearest: (Index, string) -> seq<nat>,
                 tavily: string -> Option<seq<Item>>): (calls: seq<Call>)
    requires webEnabled ==> ContentIsText(tavily(query))
    ensures 1 <= |calls| <= 5 && calls[0] == Complete(SYSTEM_PROMPT, query)
    ensures Route(llm, query, webEnabled).queryType == Greeting ==> |calls| == 2
  {
    var route := Route(llm, query, webEnabled);
    [Complete(SYSTEM_PROMPT, query)] +
    if route.queryType == Greeting then [Complete(GREETING_PROMPT, query)]
    else Lookups(route.queryType, store, webEnabled, query)
         + Completion(query, Evidence(route.queryType, webEnabled, extras, store, nearest, tavily, query))
  }

  /**
   * The evidence-gathering part of `run` for a non-greeting route: extend the
   * extras with the retriever's hits (swallowing an empty store) and the web's.
   */
  method Gather(route: QueryRoute, query: string, webEnabled: bool, extraDocs: seq<Doc>,
                vs: VectorStoreService, nearest: (Index, string) -> seq<nat>,
                tavily: string -> Option<seq<Item>>)
    returns (contextDocs: seq<Doc>, calls: seq<Call>)
    requires webEnabled ==> ContentIsText(tavily(query))
    ensures contextDocs == Evidence(route.queryType, webEnabled, extraDocs, vs.store, nearest, tavily, query)
    ensures calls == Lookups(route.queryType, vs.store, webEnabled, query)
  {
    calls := [];
    contextDocs := [];
    contextDocs := contextDocs + extraDocs;
    assert contextDocs == extraDocs;

    ghost var documentHits := DocumentHits(route.queryType, vs.store, nearest, query);
    if route.queryType in {Document, Hybrid} {
      calls := calls + [BuildStore];
      var retriever := BuildRetriever(vs);
      if retriever.Success? {
        calls := calls + [Retrieve(query)];
        contextDocs := contextDocs + Invoke(retriever.value, nearest(retriever.value, query));
      }
    }
    assert contextDocs == extraDocs + documentHits;

    ghost var webHits := WebHits(webEnabled, tavily, query);
    if webEnabled {
      calls := calls + [WebSearch(query)];
      var webDocs := Search(tavily(query));
      contextDocs := contextDocs + webDocs;
    }
    assert contextDocs == extraDocs + documentHits + webHits;
  }

  /** One iteration of the `enumerate` loop: the block and the citation of item number `n`. */
  method Render(n: nat, doc: Doc) returns (block: string, source: string)
    ensures block == Block(n, doc)
    ensures source == Citation(doc)
  {
    var metadata := doc.metadata;
    var i := NatToString(n);
    if Get(metadata, "source_type") == Str("web") {
      block := "[Web " + i + "] " + doc.content;
      source := "[Web] " + Show(Get(metadata, "title")) + " - " + Show(Get(metadata, "url"));
    } else if Get(metadata, "source_type") == Str("wikipedia") {
      block := "[Wikipedia " + i + "] " + doc.content;
      source := "[Wikipedia] " + Show(Get(metadata, "title")) + " - " + Show(Get(metadata, "url"));
    } else {
      block := "[Doc " + i + "] " + doc.content;
      source := "[Doc] " + Show(Get(metadata, "title")) + DOC_CHUNK_BREAK + Show(Get(metadata, "chunk_index"));
    }
  }

  /** The `enumerate` loop: blocks and citations, numbered from 1, side by side. */
  method RenderAll(contextDocs: seq<Doc>) returns (contextBlocks: seq<string>, sources: seq<string>)
    ensures contextBlocks == Blocks(contextDocs)
    ensures sources == Sources(contextDocs)
  {
    contextBlocks := [];
    sources := [];
    for i := 0 to |contextDocs|
      invariant contextBlocks == Blocks(contextDocs[..i])
      invariant sources == Sources(contextDocs[..i])
    {
      var block, source := Render(i + 1, contextDocs[i]);
      NumberedStep(contextDocs, Block, i);
      NumberedStep(contextDocs, NumberedCitation, i);
      contextBlocks := contextBlocks + [block];
      sources := sources + [source];
    }
    assert contextDocs[..|contextDocs|] == contextDocs;
  }

  /** The end of `run`: the canned answer without evidence, else one grounded completion over the rendered context. */
  method Respond(query: string, contextDocs: seq<Doc>, llm: (string, string) -> string)
    returns (result: AnswerResult, completion: seq<Call>)
    ensures result == Grounded(llm, query, contextDocs)
    ensures completion == Completion(query, contextDocs)
  {
    if contextDocs == [] {
      return AnswerResult(NO_INFORMATION, []), [];
    }
    var contextBlocks, sources := RenderAll(contextDocs);
    var context := Join(contextBlocks, "\n\n");
    var human := "Context:\n" + context + "\n\nQuestion:\n" + query;
    var answer := llm(GROUNDED_PROMPT, human);
    return AnswerResult(answer, sources), [Complete(GROUNDED_PROMPT, human)];
  }

  /** `RAGChain.run`. */
  method Run(query: string, webEnabled: bool, extraDocs: seq<Doc>, llm: (string, string) -> string,
             vs: VectorStoreService, nearest: (Index, string) -> seq<nat>,
             tavily: string -> Option<seq<Item>>)
    returns (result: AnswerResult, calls: seq<Call>)
    requires webEnabled ==> ContentIsText(tavily(query))
    ensures result == Answer(query, webEnabled, extraDocs, llm, vs.store, nearest, tavily)
    ensures calls == Calls(query, webEnabled, extraDocs, llm, vs.store, nearest, tavily)
  {
    var route := Route(llm, query, webEnabled);
    calls := [Complete(SYSTEM_PROMPT, query)];

    if route.queryType == Greeting {
      var answer := llm(GREETING_PROMPT, query);
      calls := calls + [Complete(GREETING_PROMPT, query)];
      return AnswerResult(answer, []), calls;
    }

    var contextDocs, lookups := Gather(route, query, webEnabled, extraDocs, vs, nearest, tavily);
    var completion;
    result, completion := Respond(query, contextDocs, llm);
    calls := calls + (lookups + completion);
  }

  // ---------------------------------------------------------------------------
  // Properties of `run`

  /** A greeting is answered by one short completion after the classifier's, with no sources. */
  lemma GreetingShortCircuit(query: string, webEnabled: bool, extras: seq<Doc>, llm: (string, string) -> string,
                             store: Option<Index>, nearest: (Index, string) -> seq<nat>,
                             tavily: string -> Option<seq<Item>>)
    requires webEnabled ==> ContentIsText(tavily(query))
    requires Route(llm, query, webEnabled).queryType == Greeting
    ensures Answer(query, webEnabled, extras, llm, store, nearest, tavily) == AnswerResult(llm(GREETING_PROMPT, query), [])
    ensures Calls(query, webEnabled, extras, llm, store, nearest, tavily)
            == [Complete(SYSTEM_PROMPT, query), Complete(GREETING_PROMPT, query)]
  {
  }

  /** Which lookups a non-greeting route makes: none of them is a completion. */
  lemma LookupsMade(t: QueryType, store: Option<Index>, webEnabled: bool, query: string)
    ensures BuildStore in Lookups(t, store, webEnabled, query) <==> t in {Document, Hybrid}
    ensures Retrieve(query) in Lookups(t, store, webEnabled, query) <==> t in {Document, Hybrid} && store.Some?
    ensures WebSearch(query) in Lookups(t, store, webEnabled, query) <==> webEnabled
    ensures forall c :: c in Lookups(t, store, webEnabled, query) ==> !c.Complete?
  {
    var docs := if t in {Document, Hybrid} then [BuildStore] + (if store.Some? then [Retrieve(query)] else []) else [];
    var web := if webEnabled then [WebSearch(query)] else [];
    assert Lookups(t, store, webEnabled, query) == docs + web;
  }

  /** A call other than a completion is among a non-greeting route's calls exactly when it is among its lookups. */
  lemma LookupAmongCalls(query: string, x: Call, lookups: seq<Call>, completion: seq<Call>)
    requires !x.Complete?
    requires forall c :: c in completion ==> c.Complete?
    ensures x in [Complete(SYSTEM_PROMPT, query)] + lookups + completion <==> x in lookups
  {
  }

  /** The calls of a non-greeting route: the classifier's, the lookups, then at most the grounded completion. */
  lemma NonGreetingCalls(query: string, webEnabled: bool, extras: seq<Doc>, llm: (string, string) -> string,
                         store: Option<Index>, nearest: (Index, string) -> seq<nat>,
                         tavily: string -> Option<seq<Item>>)
    requires webEnabled ==> ContentIsText(tavily(query))
    requires Route(llm, query, webEnabled).queryType != Greeting
    ensures var t := Route(llm, query, webEnabled).queryType;
            var ev := Evidence(t, webEnabled, extras, store, nearest, tavily, query);
            Calls(query, webEnabled, extras, llm, store, nearest, tavily)
            == [Complete(SYSTEM_PROMPT, query)] + Lookups(t, store, webEnabled, query) + Completion(query, ev)
  {
    var t := Route(llm, query, webEnabled).queryType;
    var lookups := Lookups(t, store, webEnabled, query);
    var completion := Completion(query, Evidence(t, webEnabled, extras, store, nearest, tavily, query));
    assert [Complete(SYSTEM_PROMPT, query)] + (lookups + completion)
           == [Complete(SYSTEM_PROMPT, query)] + lookups + completion;
  }

  /** The web is searched exactly when the caller enabled it and the route is not a greeting. */
  lemma WebSearchIffEnabled(query: string, webEnabled: bool, extras: seq<Doc>, llm: (string, string) -> string,
                            store: Option<Index>, nearest: (Index, string) -> seq<nat>,
                            tavily: string -> Option<seq<Item>>)
    requires webEnabled ==> ContentIsText(tavily(query))
    ensures WebSearch(query) in Calls(query, webEnabled, extras, llm, store, nearest, tavily)
            <==> webEnabled && Route(llm, query, webEnabled).queryType != Greeting
  {
    var t := Route(llm, query, webEnabled).queryType;
    if t != Greeting {
      NonGreetingCalls(query, webEnabled, extras, llm, store, nearest, tavily);
      LookupsMade(t, store, webEnabled, query);
    }
  }

  /** The retriever is built exactly for DOCUMENT and HYBRID routes, whatever the web flag. */
  lemma RetrieverOnlyForDocuments(query: string, webEnabled: bool, extras: seq<Doc>, llm: (string, string) -> string,
                                  store: Option<Index>, nearest: (Index, string) -> seq<nat>,
                                  tavily: string -> Option<seq<Item>>)
    requires webEnabled ==> ContentIsText(tavily(query))
    ensures BuildStore in Calls(query, webEnabled, extras, llm, store, nearest, tavily)
            <==> Route(llm, query, webEnabled).queryType in {Document, Hybrid}
  {
    var t := Route(llm, query, webEnabled).queryType;
    if t != Greeting {
      NonGreetingCalls(query, webEnabled, extras, llm, store, nearest, tavily);
      LookupsMade(t, store, webEnabled, query);
    }
  }

  /**
   * A classifier that answers "refuse" with the web enabled yields a REFUSE
   * route that still allows the web, and the web is searched for it.
   */
  lemma RefuseLabelStillSearchesWeb(query: string, pad: string, extras: seq<Doc>, llm: (string, string) -> string,
                                    store: Option<Index>, nearest: (Index, string) -> seq<nat>,
                                    tavily: string -> Option<seq<Item>>)
    requires AllSpace(pad) && llm(SYSTEM_PROMPT, query) == pad + "refuse"
    requires ContentIsText(tavily(query))
    ensures Route(llm, query, true) == QueryRoute(Refuse, true)
    ensures WebSearch(query) in Calls(query, true, extras, llm, store, nearest, tavily)
  {
    ClassifierRefusePassesThrough(pad, true);
    WebSearchIffEnabled(query, true, extras, llm, store, nearest, tavily);
  }

  /** An empty store is no error: the document hits are simply missing. */
  lemma EmptyStoreSwallowed(query: string, webEnabled: bool, extras: seq<Doc>, llm: (string, string) -> string,
                            nearest: (Index, string) -> seq<nat>, tavily: string -> Option<seq<Item>>)
    requires webEnabled ==> ContentIsText(tavily(query))
    requires Route(llm, query, webEnabled).queryType in {Document, Hybrid}
    ensures Evidence(Route(llm, query, webEnabled).queryType, webEnabled, extras, None, nearest, tavily, query)
            == extras + WebHits(webEnabled, tavily, query)
  {
    EvidenceWithoutStore(Route(llm, query, webEnabled).queryType, webEnabled, extras, nearest, tavily, query);
  }

  /** With an empty store the retriever is built but no similarity search is made. */
  lemma EmptyStoreNoSearch(query: string, webEnabled: bool, extras: seq<Doc>, llm: (string, string) -> string,
                           nearest: (Index, string) -> seq<nat>, tavily: string -> Option<seq<Item>>)
    requires webEnabled ==> ContentIsText(tavily(query))
    requires Route(llm, query, webEnabled).queryType in {Document, Hybrid}
    ensures BuildStore in Calls(query, webEnabled, extras, llm, None, nearest, tavily)
    ensures Retrieve(query) !in Calls(query, webEnabled, extras, llm, None, nearest, tavily)
  {
    var t := Route(llm, query, webEnabled).queryType;
    var ev := Evidence(t, webEnabled, extras, None, nearest, tavily, query);
    NonGreetingCalls(query, webEnabled, extras, llm, None, nearest, tavily);
    LookupsMade(t, None, webEnabled, query);
    LookupAmongCalls(query, BuildStore, Lookups(t, None, webEnabled, query), Completion(query, ev));
    LookupAmongCalls(query, Retrieve(query), Lookups(t, None, webEnabled, query), Completion(query, ev));
  }

  /** Without a store the evidence is the extras and the web's documents. */
  lemma EvidenceWithoutStore(t: QueryType, webEnabled: bool, extras: seq<Doc>, nearest: (Index, string) -> seq<nat>,
                             tavily: string -> Option<seq<Item>>, query: string)
    requires webEnabled ==> ContentIsText(tavily(query))
    ensures Evidence(t, webEnabled, extras, None, nearest, tavily, query) == extras + WebHits(webEnabled, tavily, query)
  {
    assert DocumentHits(t, None, nearest, query) == [];
    assert extras + [] == extras;
  }

  /**
   * With no evidence the canned answer is returned without sources, and the
   * classifier's is the only completion made.
   */
  lemma NoEvidenceNoGroundedCall(query: string, webEnabled: bool, extras: seq<Doc>, llm: (string, string) -> string,
                                 store: Option<Index>, nearest: (Index, string) -> seq<nat>,
                                 tavily: string -> Option<seq<Item>>)
    requires webEnabled ==> ContentIsText(tavily(query))
    requires Route(llm, query, webEnabled).queryType != Greeting
    requires Evidence(Route(llm, query, webEnabled).queryType, webEnabled, extras, store, nearest, tavily, query) == []
    ensures Answer(query, webEnabled, extras, llm, store, nearest, tavily) == AnswerResult(NO_INFORMATION, [])
    ensures forall c :: c in Calls(query, webEnabled, extras, llm, store, nearest, tavily) && c.Complete? ==>
              c == Complete(SYSTEM_PROMPT, query)
  {
    var t := Route(llm, query, webEnabled).queryType;
    NonGreetingCalls(query, webEnabled, extras, llm, store, nearest, tavily);
    LookupsMade(t, store, webEnabled, query);
    assert Completion(query, []) == [];
  }

  /** With evidence, source `i` is the citation of evidence item `i`, one for one. */
  lemma SourcesMatchEvidence(query: string, webEnabled: bool, extras: seq<Doc>, llm: (string, string) -> string,
                             store: Option<Index>, nearest: (Index, string) -> seq<nat>,
                             tavily: string -> Option<seq<Item>>)
    requires webEnabled ==> ContentIsText(tavily(query))
    requires Route(llm, query, webEnabled).queryType != Greeting
    ensures var ev := Evidence(Route(llm, query, webEnabled).queryType, webEnabled, extras, store, nearest, tavily, query);
            var sources := Answer(query, webEnabled, extras, llm, store, nearest, tavily).sources;
            && |sources| == |ev|
            && forall i :: 0 <= i < |ev| ==> sources[i] == Citation(ev[i]) && StartsWith(sources[i], CiteTag(Kind(ev[i])))
  {
  }

  /** `s` opens with `t`. */
  predicate StartsWith(s: string, t: string) {
    |t| <= |s| && s[..|t|] == t
  }

  /** `s` closes with `t`. */
  predicate EndsWith(s: string, t: string) {
    |t| <= |s| && s[|s| - |t|..] == t
  }

  /** `a + b + c + e` opens with `a`, then `b`, and closes with `c + e`. */
  lemma Framed(a: string, b: string, c: string, e: string)
    ensures StartsWith(a + b + c + e, a) && StartsWith((a + b + c + e)[|a|..], b)
    ensures EndsWith(a + b + c + e, c + e)
  {
    var s := a + b + c + e;
    assert s == a + (b + (c + e));
    assert s[..|a|] == a;
    assert s[|a|..] == b + (c + e);
    assert s[|a|..][..|b|] == b;
    assert s[|s| - |c + e|..] == c + e;
  }

  /** The break is the closing dash of the first line, a line feed, 21 blanks and the chunk index's label. */
  lemma ChunkBreakShape()
    ensures DOC_CHUNK_BREAK == " -" + ("\n" + Spaces(21) + "Chunk ")
  {
  }

  /** A document's citation puts the chunk index on a second line, indented by 21 blanks. */
  lemma DocCitationSecondLine(d: Doc)
    requires Kind(d) == DocSource
    ensures var k := |"[Doc] " + Show(Get(d.metadata, "title")) + " -"|;
            k + 28 <= |Citation(d)| && Citation(d)[k..k + 28] == "\n" + Spaces(21) + "Chunk "
  {
    var r := Citation(d);
    var e := DOC_CHUNK_BREAK + Show(Get(d.metadata, "chunk_index"));
    var line := "\n" + Spaces(21) + "Chunk ";
    ChunkBreakShape();
    var j := |r| - |e|;
    assert r[j..] == e;
    assert e[2..30] == line;
    assert r[j + 2..j + 30] == r[j..][2..30];
  }

  /** A block is its label, a blank and the item's text. */
  lemma BlockIsLabelled(n: nat, d: Doc)
    ensures Block(n, d) == Label(n, d) + " " + d.content
  {
  }

  /** The number in a label reads back as the block's number. */
  lemma LabelNumberReadsBack(n: nat, d: Doc)
    ensures var l, o := Label(n, d), |Opening(Kind(d))|;
            o < |l| && IsDigits(l[o..|l| - 1]) && ParseDecimal(l[o..|l| - 1]) == n
  {
    var l, o := Label(n, d), |Opening(Kind(d))|;
    assert l[o..|l| - 1] == NatToString(n);
    ParseNatToString(n);
  }

  /** Two strings that each end their first word with a blank split the same way. */
  lemma SplitAfterFirstBlank(a: string, b: string, c: string, e: string)
    requires a != [] && a[|a| - 1] == ' ' && ' ' !in a[..|a| - 1]
    requires c != [] && c[|c| - 1] == ' ' && ' ' !in c[..|c| - 1]
    requires a + b == c + e
    ensures a == c && b == e
  {
    var s := a + b;
    assert a == s[..|a|] && c == (c + e)[..|c|];
    assert b == s[|a|..] && e == (c + e)[|c|..];
  }

  lemma OpeningHasOneBlank(k: SourceKind)
    ensures var o := Opening(k); o != [] && o[|o| - 1] == ' ' && ' ' !in o[..|o| - 1]
  {
    var o := Opening(k);
    match k
    case WebSource => assert o[..|o| - 1] == "[Web";
    case WikipediaSource => assert o[..|o| - 1] == "[Wikipedia";
    case DocSource => assert o[..|o| - 1] == "[Doc";
  }

  /** Blocks with different numbers have different labels, whatever their kinds. */
  lemma {:induction false} LabelsDistinct(m: nat, n: nat, d: Doc, e: Doc)
    requires m != n
    ensures Label(m, d) != Label(n, e)
  {
    if Label(m, d) == Label(n, e) {
      var om, on := Opening(Kind(d)), Opening(Kind(e));
      var sm, sn := NatToString(m), NatToString(n);
      assert Label(m, d) == om + (sm + "]");
      assert Label(n, e) == on + (sn + "]");
      OpeningHasOneBlank(Kind(d));
      OpeningHasOneBlank(Kind(e));
      SplitAfterFirstBlank(om, sm + "]", on, sn + "]");
      assert sm == (sm + "]")[..|sm|] && sn == (sn + "]")[..|sn|];
      NatToStringInjective(m, n);
      assert false;
    }
  }

  /** Every block of the context carries its own number, counted from 1, and no two share a label. */
  lemma BlockNumbering(ev: seq<Doc>)
    ensures forall i :: 0 <= i < |ev| ==> Blocks(ev)[i] == Label(i + 1, ev[i]) + " " + ev[i].content
    ensures forall i, j :: 0 <= i < j < |ev| ==> Label(i + 1, ev[i]) != Label(j + 1, ev[j])
  {
    forall i, j | 0 <= i < j < |ev|
      ensures Label(i + 1, ev[i]) != Label(j + 1, ev[j])
    {
      LabelsDistinct(i + 1, j + 1, ev[i], ev[j]);
    }
  }
}
