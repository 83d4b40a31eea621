/**
 * Document loaders: the choice of loader by file extension, and the metadata
 * each loader puts on the records the parsing library returns. The library's
 * own output (pages of a PDF, the text of a file, Wikipedia articles) is an
 * input to these functions.
 */
module Loaders {
  import opened Common

  datatype LoaderKind = PdfLoader | TextLoader

  /** The position of the last `c` in `s`, or -1. */
  function LastIndexOf(s: string, c: char): (r: int)
    ensures -1 <= r < |s|
    ensures r >= 0 ==> s[r] == c
    ensures forall j :: r < j < |s| ==> s[j] != c
  {
    if s == [] then -1
    else if s[|s| - 1] == c then |s| - 1
    else LastIndexOf(s[..|s| - 1], c)
  }

  /**
   * `PurePosixPath(path).name`: the last component, where empty components
   * (repeated or trailing slashes) and "." components do not count.
   */
  function Name(path: string): (r: string)
    ensures '/' !in r && r != "." && |r| <= |path|
    decreases |path|
  {
    var i := LastIndexOf(path, '/');
    var last := path[i + 1..];
    if last != "" && last != "." then last
    else if i < 0 then ""
    else Name(path[..i])
  }

  /**
   * `PurePath.suffix`: the name from its last dot on, provided that dot is
   * neither the first nor the last character of the name; otherwise empty.
   */
  function Suffix(path: string): (r: string)
    ensures r == [] || (|r| >= 2 && r[0] == '.' && '.' !in r[1..])
    ensures r != [] ==> var name := Name(path); |r| < |name| && r == name[|name| - |r|..]
  {
    var name := Name(path);
    var i := LastIndexOf(name, '.');
    if 0 < i < |name| - 1 then name[i..] else ""
  }

  /**
   * `str.lower()` on the letters that matter here: only A-Z lower-case to the
   * ASCII letters of ".pdf", ".txt" and ".md".
   */
  function Lower(s: string): (r: string)
    ensures |r| == |s|
    ensures forall i :: 0 <= i < |s| ==> r[i] == (if 'A' <= s[i] <= 'Z' then (s[i] as int + 32) as char else s[i])
  {
    seq(|s|, i requires 0 <= i < |s| => if 'A' <= s[i] <= 'Z' then (s[i] as int + 32) as char else s[i])
  }

  /** `detect_loader`: PDF for ".pdf", text for ".txt" and ".md", any case; otherwise `ValueError`. */
  function DetectLoader(path: string): (r: Result<LoaderKind>)
    ensures r == Success(PdfLoader) <==> Lower(Suffix(path)) == ".pdf"
    ensures r == Success(TextLoader) <==> Lower(Suffix(path)) in {".txt", ".md"}
    ensures r.Failure? <==> Lower(Suffix(path)) !in {".pdf", ".txt", ".md"}
    ensures r.Failure? ==> r.error == "Unsupported document type: " + path
  {
    var ext := Lower(Suffix(path));
    if ext == ".pdf" then Success(PdfLoader)
    else if ext in {".txt", ".md"} then Success(TextLoader)
    else Failure("Unsupported document type: " + path)
  }

  /** After the last slash comes the name, when it is neither empty nor ".". */
  lemma NameAfterLastSlash(path: string, k: nat)
    requires k < |path| && path[k] == '/' && '/' !in path[k + 1..]
    requires path[k + 1..] != "" && path[k + 1..] != "."
    ensures Name(path) == path[k + 1..]
  {
    forall j | k < j < |path|
      ensures path[j] != '/'
    {
      assert path[k + 1..][j - k - 1] == path[j];
    }
  }

  /** A name without slashes is its own name, when it is neither empty nor ".". */
  lemma NameWithoutSlash(path: string)
    requires '/' !in path && path != "" && path != "."
    ensures Name(path) == path
  {
    forall j | 0 <= j < |path|
      ensures path[j] != '/'
    {
      assert path[j] in path;
    }
    assert path[0..] == path;
  }

  /** The suffix starts at the name's last dot, when that dot is neither first nor last. */
  lemma SuffixFromDot(path: string, d: nat)
    requires d < |Name(path)| && Name(path)[d] == '.' && '.' !in Name(path)[d + 1..]
    ensures Suffix(path) == if 0 < d < |Name(path)| - 1 then Name(path)[d..] else ""
  {
    var name := Name(path);
    forall j | d < j < |name|
      ensures name[j] != '.'
    {
      assert name[d + 1..][j - d - 1] == name[j];
    }
  }

  /**
   * The extension is compared case-insensitively: a file `stem` with any
   * spelling of ".pdf" in a directory gets the PDF loader.
   */
  lemma PdfInAnyCase(dir: string, stem: string, ext: string)
    requires stem != [] && '/' !in stem + ext
    requires |ext| == 4 && ext[0] == '.' && Lower(ext) == ".pdf"
    ensures DetectLoader(dir + "/" + stem + ext) == Success(PdfLoader)
  {
    var path := dir + "/" + stem + ext;
    var k := |dir|;
    assert path[k] == '/';
    assert path[k + 1..] == stem + ext;
    NameAfterLastSlash(path, k);
    var name := stem + ext;
    assert name[|stem|] == '.';
    assert Lower(ext)[1] == 'p' && Lower(ext)[2] == 'd' && Lower(ext)[3] == 'f';
    assert name[|stem| + 1..] == [ext[1], ext[2], ext[3]];
    SuffixFromDot(path, |stem|);
    assert name[|stem|..] == ext;
  }

  /** A name that starts with its only dot has no suffix: ".md" or ".pdf" alone is refused. */
  lemma DotFileIsUnsupported(path: string)
    requires path != [] && path[0] == '.' && '/' !in path && '.' !in path[1..]
    ensures DetectLoader(path).Failure?
  {
    if path == "." {
      assert LastIndexOf(path, '/') == -1;
      assert Name(path) == "";
    } else {
      NameWithoutSlash(path);
      SuffixFromDot(path, 0);
    }
    assert Suffix(path) == "";
    assert Lower("") == "";
  }

  /** The `source_type` each file loader stamps. */
  function Tag(kind: LoaderKind): string {
    match kind
    case PdfLoader => "pdf"
    case TextLoader => "text"
  }

  /**
   * `PDFDocumentLoader.load` and `TextDocumentLoader.load`: one record per
   * document the library returns, in order, with its content, and with its
   * metadata where `source_type` and `source` override whatever it had.
   */
  function Load(kind: LoaderKind, source: string, library: seq<Doc>): (r: seq<Doc>)
    ensures |r| == |library|
    ensures forall i :: 0 <= i < |r| ==>
      && r[i].content == library[i].content
      && r[i].metadata.Keys == library[i].metadata.Keys + {"source_type", "source"}
      && r[i].metadata["source_type"] == Str(Tag(kind))
      && r[i].metadata["source"] == Str(source)
    ensures forall i, key ::
      (0 <= i < |r| && key in library[i].metadata && key != "source_type" && key != "source") ==>
      r[i].metadata[key] == library[i].metadata[key]
  {
    seq(|library|, i requires 0 <= i < |library| =>
      Doc(library[i].content, library[i].metadata["source_type" := Str(Tag(kind))]["source" := Str(source)]))
  }

  /**
   * `WikipediaDocumentLoader.load`: one record per article, whose metadata is
   * exactly the four keys below, the URL taken from the library's "source".
   */
  function LoadWikipedia(query: string, library: seq<Doc>): (r: seq<Doc>)
    ensures |r| == |library|
    ensures forall i :: 0 <= i < |r| ==>
      && r[i].content == library[i].content
      && r[i].metadata.Keys == {"source_type", "source", "title", "url"}
      && r[i].metadata["source_type"] == Str("wikipedia")
      && r[i].metadata["source"] == Str(query)
      && r[i].metadata["title"] == Get(library[i].metadata, "title")
      && r[i].metadata["url"] == Get(library[i].metadata, "source")
  {
    seq(|library|, i requires 0 <= i < |library| =>
      Doc(library[i].content,
          map["source_type" := Str("wikipedia"), "source" := Str(query),
              "title" := Get(library[i].metadata, "title"),
              "url" := Get(library[i].metadata, "source")]))
  }
}
