/**
 * The query router: the classifier's free-text label is normalised
 * (`strip()` then `upper()`), parsed into a closed enumeration with DOCUMENT
 * as the fallback, and gated against the caller's web flag.
 * The classifier itself (a language-model call) is an oracle parameter.
 */
module QueryRouter {

  datatype QueryType = Greeting | Document | Web | Hybrid | Refuse

  /** The frozen route: the query type and whether web retrieval is allowed. */
  datatype QueryRoute = QueryRoute(queryType: QueryType, allowWeb: bool)

  const SYSTEM_PROMPT: string :=
    "You are an intent classifier for a search system.\n"
    + "Classify the user query into exactly ONE label:\n"
    + "GREETING, DOCUMENT, WEB, HYBRID\n"
    + "Return ONLY the label.\n"
    + "No Extra Text"

  /** The string value of each enumeration member. */
  function LabelOf(t: QueryType): string {
    match t
    case Greeting => "GREETING"
    case Document => "DOCUMENT"
    case Web => "WEB"
    case Hybrid => "HYBRID"
    case Refuse => "REFUSE"
  }

  predicate IsLabel(s: string) {
    s in {"GREETING", "DOCUMENT", "WEB", "HYBRID", "REFUSE"}
  }

  // ---------------------------------------------------------------------------
  // Normalisation

  /** The characters Python's `str.strip()` removes (those for which `isspace()` holds). */
  predicate IsSpace(c: char) {
    || ('\t' <= c <= '\r')                // tab, line feed, vertical tab, form feed, carriage return
    || ('\U{001C}' <= c <= '\U{001F}')    // file, group, record and unit separators
    || c == ' ' || c == '\U{0085}' || c == '\U{00A0}' || c == '\U{1680}'
    || ('\U{2000}' <= c <= '\U{200A}')
    || c == '\U{2028}' || c == '\U{2029}' || c == '\U{202F}' || c == '\U{205F}' || c == '\U{3000}'
  }

  predicate AllSpace(s: string) {
    forall i :: 0 <= i < |s| ==> IsSpace(s[i])
  }

  /** `s` without its leading whitespace. */
  function StripStart(s: string): (r: string)
    ensures |r| <= |s| && r == s[|s| - |r|..]
    ensures forall i :: 0 <= i < |s| - |r| ==> IsSpace(s[i])
    ensures r == [] || !IsSpace(r[0])
  {
    if s != [] && IsSpace(s[0]) then StripStart(s[1..]) else s
  }

  /** `s` without its trailing whitespace. */
  function StripEnd(s: string): (r: string)
    ensures |r| <= |s| && r == s[..|r|]
    ensures forall i :: |r| <= i < |s| ==> IsSpace(s[i])
    ensures r == [] || !IsSpace(r[|r| - 1])
  {
    if s != [] && IsSpace(s[|s| - 1]) then
      var r := StripEnd(s[..|s| - 1]);
      assert s[..|s| - 1][..|r|] == s[..|r|];
      r
    else s
  }

  /** Python's `str.strip()`: the longest slice with no whitespace at either end. */
  function Strip(s: string): (r: string)
    ensures r == [] || (!IsSpace(r[0]) && !IsSpace(r[|r| - 1]))
  {
    StripEnd(StripStart(s))
  }

  /**
   * `upper()` on one character, for every character whose upper case is a single
   * ASCII letter: a-z, the dotless i (U+0131) and the long s (U+017F).
   */
  function UpperChar(c: char): (u: char)
    ensures 'a' <= c <= 'z' ==> u as int == c as int - 32
    ensures c == '\U{0131}' ==> u == 'I'
    ensures c == '\U{017F}' ==> u == 'S'
    ensures !('a' <= c <= 'z') && c != '\U{0131}' && c != '\U{017F}' ==> u == c
    ensures !('a' <= u <= 'z')
    ensures IsSpace(u) == IsSpace(c)
  {
    if 'a' <= c <= 'z' then (c as int - 32) as char
    else if c == '\U{0131}' then 'I'
    else if c == '\U{017F}' then 'S'
    else c
  }

  function Upper(s: string): (r: string)
    ensures |r| == |s| && forall i :: 0 <= i < |s| ==> r[i] == UpperChar(s[i])
  {
    seq(|s|, i requires 0 <= i < |s| => UpperChar(s[i]))
  }

  /** The classifier's reply as the parser sees it: no padding, and no lower-case ASCII letter left. */
  function Normalize(raw: string): (r: string)
    ensures r == [] || (!IsSpace(r[0]) && !IsSpace(r[|r| - 1]))
    ensures forall i :: 0 <= i < |r| ==> !('a' <= r[i] <= 'z')
  {
    Upper(Strip(raw))
  }

  // ---------------------------------------------------------------------------
  // Parse and policy gate

  /** `QueryType(label)` with the `ValueError` fallback to DOCUMENT. */
  function Parse(name: string): (t: QueryType)
    ensures IsLabel(name) ==> LabelOf(t) == name
    ensures !IsLabel(name) ==> t == Document
  {
    match name
    case "GREETING" => Greeting
    case "DOCUMENT" => Document
    case "WEB" => Web
    case "HYBRID" => Hybrid
    case "REFUSE" => Refuse
    case _ => Document
  }

  /** Every member parses back from its own label. */
  lemma ParseLabelOf(t: QueryType)
    ensures Parse(LabelOf(t)) == t
  {
  }

  /** The policy gate over the parsed intent and the caller's web flag. */
  function Gate(intent: QueryType, webEnabled: bool): (r: QueryRoute)
    ensures r.allowWeb == (webEnabled && intent != Greeting)
    ensures intent == Greeting ==> r == QueryRoute(Greeting, false)
    ensures webEnabled && intent != Greeting ==> r.queryType == intent
    ensures !webEnabled ==> r.queryType != Web && r.queryType != Hybrid
    ensures !webEnabled && intent == Web ==> r.queryType == Refuse
    ensures !webEnabled && intent == Hybrid ==> r.queryType == Document
    ensures !webEnabled && intent in {Document, Refuse} ==> r.queryType == intent
  {
    if intent == Greeting then QueryRoute(Greeting, false)
    else if webEnabled then QueryRoute(intent, true)
    else if intent == Web then QueryRoute(Refuse, false)
    else if intent == Hybrid then QueryRoute(Document, false)
    else QueryRoute(intent, false)
  }

  /** The route for the classifier's raw reply. */
  function RouteLabel(raw: string, webEnabled: bool): (r: QueryRoute)
    ensures r.allowWeb == (webEnabled && Parse(Normalize(raw)) != Greeting)
    ensures !IsLabel(Normalize(raw)) ==> r == QueryRoute(Document, webEnabled)
    ensures !webEnabled ==> !r.allowWeb && r.queryType != Web && r.queryType != Hybrid
  {
    Gate(Parse(Normalize(raw)), webEnabled)
  }

  /** `QueryRouter.route`: one classifier call, then the deterministic policy. */
  function Route(llm: (string, string) -> string, query: string, webEnabled: bool): (r: QueryRoute)
    ensures r.allowWeb == (webEnabled && Parse(Normalize(llm(SYSTEM_PROMPT, query))) != Greeting)
    ensures Parse(Normalize(llm(SYSTEM_PROMPT, query))) == Greeting ==> r == QueryRoute(Greeting, false)
    ensures !webEnabled ==> r.queryType != Web && r.queryType != Hybrid
  {
    RouteLabel(llm(SYSTEM_PROMPT, query), webEnabled)
  }

  // ---------------------------------------------------------------------------
  // Properties of normalisation

  lemma {:induction false} StripStartSpacePrefix(w: string, s: string)
    requires AllSpace(w)
    ensures StripStart(w + s) == StripStart(s)
    decreases |w|
  {
    if w == [] {
      assert w + s == s;
    } else {
      assert (w + s)[1..] == w[1..] + s;
      StripStartSpacePrefix(w[1..], s);
    }
  }

  lemma {:induction false} StripEndSpaceSuffix(s: string, w: string)
    requires AllSpace(w)
    ensures StripEnd(s + w) == StripEnd(s)
    decreases |w|
  {
    if w == [] {
      assert s + w == s;
    } else {
      assert (s + w)[..|s + w| - 1] == s + w[..|w| - 1];
      StripEndSpaceSuffix(s, w[..|w| - 1]);
    }
  }

  /** Once a non-blank character is met, what follows is kept untouched. */
  lemma {:induction false} StripStartAppend(s: string, t: string)
    requires StripStart(s) != []
    ensures StripStart(s + t) == StripStart(s) + t
    decreases |s|
  {
    assert (s + t)[0] == s[0];
    if IsSpace(s[0]) {
      assert StripStart(s) == StripStart(s[1..]);
      assert (s + t)[1..] == s[1..] + t;
      StripStartAppend(s[1..], t);
      assert StripStart(s + t) == StripStart(s[1..] + t);
    } else {
      assert StripStart(s) == s;
      assert StripStart(s + t) == s + t;
    }
  }

  lemma AllSpaceAppend(a: string, b: string)
    requires AllSpace(a) && AllSpace(b)
    ensures AllSpace(a + b)
  {
    forall i | 0 <= i < |a + b|
      ensures IsSpace((a + b)[i])
    {
      if i >= |a| {
        assert (a + b)[i] == b[i - |a|];
      }
    }
  }

  /** Stripping leaves nothing exactly when there is nothing but whitespace. */
  lemma StripStartEmpty(s: string)
    ensures StripStart(s) == [] <==> AllSpace(s)
  {
    if StripStart(s) == [] {
    }
    if AllSpace(s) {
      StripStartSpacePrefix(s, []);
      assert s + [] == s;
    }
  }

  /** Whitespace around the classifier's label never changes the route. */
  lemma StripIgnoresPadding(pre: string, raw: string, post: string)
    requires AllSpace(pre) && AllSpace(post)
    ensures Strip(pre + raw + post) == Strip(raw)
  {
    var tail := raw + post;
    assert pre + raw + post == pre + tail;
    StripStartSpacePrefix(pre, tail);
    StripStartEmpty(raw);
    if StripStart(raw) == [] {
      AllSpaceAppend(raw, post);
      StripStartEmpty(tail);
    } else {
      StripStartAppend(raw, post);
      StripEndSpaceSuffix(StripStart(raw), post);
    }
  }

  lemma RouteIgnoresPadding(pre: string, raw: string, post: string, webEnabled: bool)
    requires AllSpace(pre) && AllSpace(post)
    ensures RouteLabel(pre + raw + post, webEnabled) == RouteLabel(raw, webEnabled)
  {
    StripIgnoresPadding(pre, raw, post);
  }

  /** A string with no whitespace at either end is its own strip. */
  lemma StripUnpadded(s: string)
    requires s != [] && !IsSpace(s[0]) && !IsSpace(s[|s| - 1])
    ensures Strip(s) == s
  {
  }

  lemma NormalizeUnpadded(s: string)
    requires s != [] && !IsSpace(s[0]) && !IsSpace(s[|s| - 1])
    ensures Normalize(s) == Upper(s)
  {
    StripUnpadded(s);
  }

  lemma NormalizeLowerWeb()
    ensures Normalize("web") == "WEB"
  {
    assert Upper("web") == "WEB";
    NormalizeUnpadded("web");
  }

  lemma NormalizeUpperWeb()
    ensures Normalize("WEB") == "WEB"
  {
    assert Upper("WEB") == "WEB";
    NormalizeUnpadded("WEB");
  }

  /** `" web\n"` routes exactly as `"WEB"` does. */
  lemma PaddedLowerCaseWeb(webEnabled: bool)
    ensures RouteLabel(" web\n", webEnabled) == RouteLabel("WEB", webEnabled)
    ensures RouteLabel(" web\n", webEnabled)
            == (if webEnabled then QueryRoute(Web, true) else QueryRoute(Refuse, false))
  {
    assert " " + "web" + "\n" == " web\n";
    assert IsSpace(' ') && IsSpace('\n');
    RouteIgnoresPadding(" ", "web", "\n", webEnabled);
    NormalizeLowerWeb();
    NormalizeUpperWeb();
    ParseLabelOf(Web);
  }

  /** Leading whitespace before a word with no whitespace at either end is all that strip removes. */
  lemma StripPaddedWord(pad: string, word: string)
    requires AllSpace(pad)
    requires word != [] && !IsSpace(word[0]) && !IsSpace(word[|word| - 1])
    ensures Strip(pad + word) == word
  {
    StripIgnoresPadding(pad, word, []);
    assert pad + word + [] == pad + word;
    StripUnpadded(word);
  }

  lemma UpperRefuse()
    ensures Upper("refuse") == "REFUSE"
  {
  }

  lemma NormalizePaddedRefuse(pad: string)
    requires AllSpace(pad)
    ensures Normalize(pad + "refuse") == "REFUSE"
  {
    StripPaddedWord(pad, "refuse");
    UpperRefuse();
  }

  /** The classifier may itself answer REFUSE; with the web enabled that passes through. */
  lemma ClassifierRefusePassesThrough(pad: string, webEnabled: bool)
    requires AllSpace(pad)
    ensures RouteLabel(pad + "refuse", webEnabled) == QueryRoute(Refuse, webEnabled)
  {
    NormalizePaddedRefuse(pad);
    ParseLabelOf(Refuse);
  }

  // ---------------------------------------------------------------------------
  // Casing does not matter

  /** `s` spells `word` letter by letter, each letter in either ASCII case. */
  predicate AnyCaseOf(s: string, word: string) {
    && |s| == |word|
    && forall i :: 0 <= i < |s| ==> s[i] == word[i] || s[i] as int == word[i] as int + 32
  }

  predicate CapitalsOnly(word: string) {
    forall i :: 0 <= i < |word| ==> 'A' <= word[i] <= 'Z'
  }

  lemma LabelCapitals(t: QueryType)
    ensures LabelOf(t) != [] && CapitalsOnly(LabelOf(t))
  {
  }

  /** Upper-casing any casing of a word of capitals gives the word back. */
  lemma UpperAnyCase(s: string, word: string)
    requires CapitalsOnly(word) && AnyCaseOf(s, word)
    ensures Upper(s) == word
  {
    forall i | 0 <= i < |s|
      ensures Upper(s)[i] == word[i]
    {
      if s[i] != word[i] {
        assert 'a' <= s[i] <= 'z';
      }
    }
  }

  /** Any casing of a non-empty word of capitals normalises to the word itself. */
  lemma NormalizeAnyCase(s: string, word: string)
    requires word != [] && CapitalsOnly(word) && AnyCaseOf(s, word)
    ensures Normalize(s) == word
  {
    assert 'A' <= word[0] <= 'Z' && 'A' <= word[|s| - 1] <= 'Z';
    assert !IsSpace(s[0]) && !IsSpace(s[|s| - 1]);
    NormalizeUnpadded(s);
    UpperAnyCase(s, word);
  }

  /**
   * Whatever the casing of the classifier's reply, and whatever whitespace
   * surrounds it, each label parses to its own member and routes as that member.
   */
  lemma AnyCaseLabelRoutes(t: QueryType, pre: string, s: string, post: string, webEnabled: bool)
    requires AllSpace(pre) && AllSpace(post) && AnyCaseOf(s, LabelOf(t))
    ensures Parse(Normalize(pre + s + post)) == t
    ensures RouteLabel(pre + s + post, webEnabled) == Gate(t, webEnabled)
  {
    StripIgnoresPadding(pre, s, post);
    assert Normalize(pre + s + post) == Normalize(s);
    LabelCapitals(t);
    NormalizeAnyCase(s, LabelOf(t));
    ParseLabelOf(t);
  }
}
