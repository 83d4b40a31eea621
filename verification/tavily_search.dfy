/**
 * The web search adapter: the raw search reply is normalised into web
 * documents. The HTTP call is an input: `None` stands for a falsy reply or one
 * without a (truthy) "results" entry, otherwise the list of result dictionaries.
 */
module TavilySearch {
  import opened Common

  /** One raw search result dictionary. */
  type Item = map<string, Value>

  /** A present "content" must be a string: a `Document` cannot be built otherwise. */
  predicate ContentIsText(raw: Option<seq<Item>>) {
    raw.Some? ==> forall i :: 0 <= i < |raw.value| ==> "content" in raw.value[i] ==> raw.value[i]["content"].Str?
  }

  /** `item.get(key, default)`. */
  function GetOr(item: Item, key: string, default: Value): Value {
    if key in item then item[key] else default
  }

  /** The web document built from one result. */
  function WebDoc(item: Item): Doc
    requires "content" in item ==> item["content"].Str?
  {
    Doc(if "content" in item then item["content"].s else "",
        map["source_type" := Str("web"),
            "title" := GetOr(item, "title", Str("Web Result")),
            "url" := Get(item, "url"),
            "source_id" := Str("tavily")])
  }

  /** The documents `search` returns for a raw reply. */
  function WebDocs(raw: Option<seq<Item>>): seq<Doc>
    requires ContentIsText(raw)
  {
    if raw.None? then []
    else seq(|raw.value|, i requires 0 <= i < |raw.value| => WebDoc(raw.value[i]))
  }

  /**
   * `TavilySearchService.search`: one web document per result, in order, with
   * the content defaulting to "", the title to "Web Result", the URL possibly None.
   */
  method Search(raw: Option<seq<Item>>) returns (documents: seq<Doc>)
    requires ContentIsText(raw)
    ensures documents == WebDocs(raw)
    ensures raw.None? ==> documents == []
    ensures raw.Some? ==> |documents| == |raw.value|
    ensures raw.Some? ==> forall i :: 0 <= i < |documents| ==>
      && documents[i].content == (if "content" in raw.value[i] then raw.value[i]["content"].s else "")
      && Get(documents[i].metadata, "title") == GetOr(raw.value[i], "title", Str("Web Result"))
      && Get(documents[i].metadata, "url") == Get(raw.value[i], "url")
    ensures forall d :: d in documents ==>
      Get(d.metadata, "source_type") == Str("web") && Get(d.metadata, "source_id") == Str("tavily")
  {
    documents := [];
    if raw.None? || raw.value == [] {
      return;
    }
    var results := raw.value;
    for i := 0 to |results|
      invariant documents == WebDocs(raw)[..i]
    {
      var item := results[i];
      documents := documents + [
        Doc(if "content" in item then item["content"].s else "",
            map["source_type" := Str("web"),
                "title" := GetOr(item, "title", Str("Web Result")),
                "url" := Get(item, "url"),
                "source_id" := Str("tavily")])];
    }
    assert WebDocs(raw)[..|results|] == WebDocs(raw);
  }
}
