/**
 * The Word parser: the non-blank paragraphs, separated by a blank line, and
 * the core properties, each missing one as `''`.
 */
module DocxParser {
  import opened Common
  import opened Errors
  import opened Text
  import opened Paths
  import opened FileSystem
  import opened Libraries
  import opened Parsed

  const Extensions: set<string> := {".docx", ".doc"}

  /** The paragraphs with something other than whitespace, in document order. */
  function NonBlank(paragraphs: seq<string>): (r: seq<string>)
    ensures |r| <= |paragraphs|
    ensures forall p :: p in r ==> p in paragraphs && !IsBlank(p)
    ensures forall p :: p in paragraphs && !IsBlank(p) ==> p in r
    decreases |paragraphs|
  {
    if |paragraphs| == 0 then []
    else
      var rest := NonBlank(paragraphs[1..]);
      assert forall p :: p in paragraphs ==> p == paragraphs[0] || p in paragraphs[1..];
      if IsBlank(paragraphs[0]) then rest else [paragraphs[0]] + rest
  }

  /** Filtering distributes over concatenation, so order and repetition are kept. */
  lemma {:induction false} NonBlankConcat(a: seq<string>, b: seq<string>)
    ensures NonBlank(a + b) == NonBlank(a) + NonBlank(b)
    decreases |a|
  {
    if |a| == 0 {
      assert a + b == b;
    } else {
      assert (a + b)[1..] == a[1..] + b;
      NonBlankConcat(a[1..], b);
    }
  }

  /** A single paragraph is kept exactly when it is not blank. */
  lemma NonBlankSingle(p: string)
    ensures NonBlank([p]) == if IsBlank(p) then [] else [p]
  {
    assert [p][1..] == [];
  }

  /** Blank paragraphs anywhere leave the content unchanged. */
  lemma {:induction false} BlankParagraphIgnored(before: seq<string>, blank: string, after: seq<string>)
    requires IsBlank(blank)
    ensures NonBlank(before + [blank] + after) == NonBlank(before + after)
    decreases |before|
  {
    if |before| == 0 {
      assert before + [blank] + after == [blank] + after;
      assert ([blank] + after)[1..] == after;
      assert before + after == after;
    } else {
      BlankParagraphIgnored(before[1..], blank, after);
      assert (before + [blank] + after)[1..] == before[1..] + [blank] + after;
      assert (before + after)[1..] == before[1..] + after;
    }
  }

  /** `core_props.x or ''`. */
  function OrEmpty(v: Option<string>): string {
    v.GetOr("")
  }

  function Parse(libs: Libraries, fs: Fs, path: string): (r: Result<Parsed>)
    requires IsNormal(path)
    ensures r.Ok? <==> Open(fs, path).Ok? && libs.docx(fs[path]).Ok?
    ensures r.Ok? ==> var doc := libs.docx(fs[path]).value;
      && r.value.content == Join(NonBlank(doc.paragraphs), "\n\n")
      && r.value.metadata == DocxMeta(OrEmpty(doc.title), OrEmpty(doc.author), OrEmpty(doc.created),
                                      OrEmpty(doc.modified), |doc.paragraphs|, doc.sections)
      && r.value.format == "docx"
    ensures r.Err? ==> r.error.Mcp? && r.error.kind == DocumentParseError && StartsWith(r.error.Str(), "DOCX parse error: ")
    ensures Open(fs, path).Err? ==> r == Err(Raise(DocumentParseError, "DOCX parse error: " + Open(fs, path).error.Str()))
    ensures Open(fs, path).Ok? && libs.docx(fs[path]).Err? ==>
      r == Err(Raise(DocumentParseError, "DOCX parse error: " + libs.docx(fs[path]).error.Str()))
  {
    var result := (
      var node :- Open(fs, path);
      var doc :- libs.docx(node);
      Ok(Parsed(Join(NonBlank(doc.paragraphs), "\n\n"),
                DocxMeta(OrEmpty(doc.title), OrEmpty(doc.author), OrEmpty(doc.created),
                         OrEmpty(doc.modified), |doc.paragraphs|, doc.sections),
                "docx")));
    WrapAsKind(DocumentParseError, "DOCX parse error: ", result);
    WrapAs(DocumentParseError, "DOCX parse error: ", result)
  }
}
