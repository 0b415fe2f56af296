/**
 * The PDF parser: every page with text becomes a block `[Page n]` followed by
 * the text, numbered by the page's position in the document (pages without
 * text are skipped but still counted); blocks are separated by a blank line.
 */
module PdfParser {
  import opened Common
  import opened Errors
  import opened Text
  import opened Paths
  import opened FileSystem
  import opened Libraries
  import opened Parsed

  const Extensions: set<string> := {".pdf"}

  /** The block for page number `n`. */
  function Block(n: nat, text: string): string {
    "[Page " + NatToString(n) + "]\n" + text
  }

  /** `b` is the block of some page with text in `texts`, the first of which is page `first`. */
  predicate FromPage(texts: seq<string>, first: nat, b: string) {
    exists i :: 0 <= i < |texts| && texts[i] != "" && b == Block(first + i, texts[i])
  }

  /** The number of pages with text. */
  function TextCount(texts: seq<string>): (n: nat)
    ensures n <= |texts|
    decreases |texts|
  {
    if |texts| == 0 then 0 else (if texts[0] == "" then 0 else 1) + TextCount(texts[1..])
  }

  /** The blocks of the pages in `texts`, the first of which is page `first`. */
  function Blocks(texts: seq<string>, first: nat): (r: seq<string>)
    ensures |r| == TextCount(texts)
    ensures forall b :: b in r ==> FromPage(texts, first, b)
    decreases |texts|
  {
    if |texts| == 0 then []
    else
      var rest := Blocks(texts[1..], first + 1);
      assert forall b :: b in rest ==> FromPage(texts, first, b) by {
        forall b | b in rest
          ensures FromPage(texts, first, b)
        {
          var j :| 0 <= j < |texts[1..]| && texts[1..][j] != "" && b == Block(first + 1 + j, texts[1..][j]);
          assert texts[j + 1] == texts[1..][j];
        }
      }
      assert texts[0] != "" ==> FromPage(texts, first, Block(first, texts[0]));
      if texts[0] == "" then rest else [Block(first, texts[0])] + rest
  }

  /** With text on every page there is one block per page; with text on none there are none. */
  lemma {:induction false} BlocksCountExtremes(texts: seq<string>, first: nat)
    ensures (forall i :: 0 <= i < |texts| ==> texts[i] != "") ==> |Blocks(texts, first)| == |texts|
    ensures (forall i :: 0 <= i < |texts| ==> texts[i] == "") ==> Blocks(texts, first) == []
    decreases |texts|
  {
    if |texts| > 0 {
      BlocksCountExtremes(texts[1..], first + 1);
      assert forall i :: 1 <= i < |texts| ==> texts[1..][i - 1] == texts[i];
    }
  }

  /** A first page without text contributes nothing. */
  lemma BlocksSkip(texts: seq<string>, first: nat)
    requires |texts| > 0 && texts[0] == ""
    ensures Blocks(texts, first) == Blocks(texts[1..], first + 1)
  {
  }

  /** A first page with text contributes its block ahead of the rest. */
  lemma BlocksKeep(texts: seq<string>, first: nat)
    requires |texts| > 0 && texts[0] != ""
    ensures Blocks(texts, first) == [Block(first, texts[0])] + Blocks(texts[1..], first + 1)
  {
  }

  /** Rendering distributes over a split of the page list, so blocks keep page order. */
  lemma {:induction false} BlocksConcat(a: seq<string>, b: seq<string>, first: nat)
    ensures Blocks(a + b, first) == Blocks(a, first) + Blocks(b, first + |a|)
    decreases |a|
  {
    if |a| == 0 {
      assert a + b == b;
    } else {
      var ab := a + b;
      assert ab[0] == a[0] && ab[1..] == a[1..] + b;
      BlocksConcat(a[1..], b, first + 1);
      if a[0] == "" {
        BlocksSkip(ab, first);
        BlocksSkip(a, first);
      } else {
        BlocksKeep(ab, first);
        BlocksKeep(a, first);
        var h := Block(first, a[0]);
        var x := Blocks(a[1..], first + 1);
        var y := Blocks(b, first + |a|);
        assert [h] + (x + y) == [h] + x + y;
      }
    }
  }

  /** No page with text is dropped: page `first + i` gets its block. */
  lemma {:induction false} BlocksComplete(texts: seq<string>, first: nat, i: nat)
    requires i < |texts| && texts[i] != ""
    ensures Block(first + i, texts[i]) in Blocks(texts, first)
    decreases i
  {
    if i > 0 {
      BlocksComplete(texts[1..], first + 1, i - 1);
      assert texts[1..][i - 1] == texts[i];
    }
  }

  /** The text content of a document whose pages extract to `texts`. */
  function Content(texts: seq<string>): string {
    Join(Blocks(texts, 1), "\n\n")
  }

  /** The page loop of `parse`, appending one block per page with text. */
  method RenderPages(texts: seq<string>) returns (content: string)
    ensures content == Content(texts)
  {
    var blocks: seq<string> := [];
    var i := 0;
    while i < |texts|
      invariant 0 <= i <= |texts|
      invariant blocks + Blocks(texts[i..], i + 1) == Blocks(texts, 1)
    {
      assert texts[i..][1..] == texts[i + 1..];
      if texts[i] != "" {
        blocks := blocks + [Block(i + 1, texts[i])];
      }
      i := i + 1;
    }
    assert texts[i..] == [];
    assert blocks + [] == blocks;
    content := Join(blocks, "\n\n");
  }

  /** A page without text keeps its number: the next page with text is still labelled by its position. */
  lemma SkippedPageKeepsNumbering(text: string)
    requires text != ""
    ensures Content(["", text]) == "[Page 2]\n" + text
  {
    assert ["", text][1..] == [text];
    assert [text][1..] == [];
    assert Blocks(["", text], 1) == Blocks([text], 2) == [Block(2, text)];
    assert DigitChar(2) == '2';
    assert NatToString(2) == "2";
    assert "[Page " + "2" + "]\n" == "[Page 2]\n";
  }

  /** Every block's tag reads back as the page's position. */
  lemma LabelReadsBack(n: nat, text: string)
    ensures StartsWith(Block(n, text), "[Page " + NatToString(n) + "]")
    ensures ParseDigits(NatToString(n)) == n
  {
    NatToStringRoundTrip(n);
    var tag := "[Page " + NatToString(n) + "]";
    assert Block(n, text) == tag + ("\n" + text);
    assert Block(n, text)[..|tag|] == tag;
  }

  function Parse(libs: Libraries, fs: Fs, path: string): (r: Result<Parsed>)
    requires IsNormal(path)
    ensures r.Ok? <==> Open(fs, path).Ok? && libs.pdf(fs[path]).Ok?
    ensures r.Ok? ==> var doc := libs.pdf(fs[path]).value;
      && r.value.content == Content(doc.pageTexts)
      && r.value.metadata == PdfMeta(|doc.pageTexts|, doc.info.GetOr(map[]))
      && r.value.format == "pdf"
    ensures r.Err? ==> r.error.Mcp? && r.error.kind == DocumentParseError && StartsWith(r.error.Str(), "PDF parse error: ")
    ensures Open(fs, path).Err? ==> r == Err(Raise(DocumentParseError, "PDF parse error: " + Open(fs, path).error.Str()))
    ensures Open(fs, path).Ok? && libs.pdf(fs[path]).Err? ==>
      r == Err(Raise(DocumentParseError, "PDF parse error: " + libs.pdf(fs[path]).error.Str()))
  {
    var result := (
      var node :- Open(fs, path);
      var doc :- libs.pdf(node);
      Ok(Parsed(Content(doc.pageTexts), PdfMeta(|doc.pageTexts|, doc.info.GetOr(map[])), "pdf")));
    WrapAsKind(DocumentParseError, "PDF parse error: ", result);
    WrapAs(DocumentParseError, "PDF parse error: ", result)
  }
}
