/**
 * The spreadsheet parser: every sheet becomes `[Sheet: name]` followed by its
 * table, sheets separated by a blank line; one unreadable sheet fails the whole
 * workbook. The format tag is `xlsx` for `.xls` files too.
 */
module ExcelParser {
  import opened Common
  import opened Errors
  import opened Text
  import opened Paths
  import opened FileSystem
  import opened Libraries
  import opened Parsed

  const Extensions: set<string> := {".xlsx", ".xls"}

  function SheetBlock(name: string, table: string): string {
    "[Sheet: " + name + "]\n" + table
  }

  /** The first `n` sheets were read without error. */
  predicate AllRead(sheets: seq<Sheet>, n: nat)
    requires n <= |sheets|
  {
    forall j :: 0 <= j < n ==> sheets[j].table.Ok?
  }

  /** One block per sheet in workbook order, or the first unreadable sheet's error. */
  function SheetBlocks(sheets: seq<Sheet>): (r: Result<seq<string>>)
    ensures r.Ok? <==> forall i :: 0 <= i < |sheets| ==> sheets[i].table.Ok?
    ensures r.Ok? ==> |r.value| == |sheets|
    ensures r.Ok? ==> forall i :: 0 <= i < |sheets| ==> r.value[i] == SheetBlock(sheets[i].name, sheets[i].table.value)
    ensures r.Err? ==> exists i :: 0 <= i < |sheets| && sheets[i].table == Err(r.error) && AllRead(sheets, i)
    decreases |sheets|
  {
    if |sheets| == 0 then Ok([])
    else
      match sheets[0].table
      case Err(e) => Err(e)
      case Ok(table) =>
        match SheetBlocks(sheets[1..])
        case Err(e) =>
          var j :| 0 <= j < |sheets[1..]| && sheets[1..][j].table == Err(e) && AllRead(sheets[1..], j);
          assert sheets[j + 1] == sheets[1..][j];
          assert AllRead(sheets, j + 1) by {
            assert forall k :: 1 <= k < j + 1 ==> sheets[k] == sheets[1..][k - 1];
          }
          Err(e)
        case Ok(rest) =>
          assert forall i :: 1 <= i < |sheets| ==> sheets[i] == sheets[1..][i - 1];
          Ok([SheetBlock(sheets[0].name, table)] + rest)
  }

  function SheetNames(sheets: seq<Sheet>): (r: seq<string>)
    ensures |r| == |sheets| && forall i :: 0 <= i < |sheets| ==> r[i] == sheets[i].name
  {
    seq(|sheets|, i requires 0 <= i < |sheets| => sheets[i].name)
  }

  function Parse(libs: Libraries, fs: Fs, path: string): (r: Result<Parsed>)
    requires IsNormal(path)
    ensures r.Ok? <==> Open(fs, path).Ok? && libs.excel(fs[path]).Ok? && SheetBlocks(libs.excel(fs[path]).value.sheets).Ok?
    ensures r.Ok? ==> var book := libs.excel(fs[path]).value;
      && (forall i :: 0 <= i < |book.sheets| ==> book.sheets[i].table.Ok?)
      && r.value.content == Join(SheetBlocks(book.sheets).value, "\n\n")
      && r.value.metadata == ExcelMeta(SheetNames(book.sheets), |book.sheets|)
      && r.value.format == "xlsx"
    ensures r.Err? ==> r.error.Mcp? && r.error.kind == DocumentParseError && StartsWith(r.error.Str(), "Excel parse error: ")
    ensures Open(fs, path).Err? ==> r == Err(Raise(DocumentParseError, "Excel parse error: " + Open(fs, path).error.Str()))
    ensures Open(fs, path).Ok? && libs.excel(fs[path]).Err? ==>
      r == Err(Raise(DocumentParseError, "Excel parse error: " + libs.excel(fs[path]).error.Str()))
    ensures Open(fs, path).Ok? && libs.excel(fs[path]).Ok? && SheetBlocks(libs.excel(fs[path]).value.sheets).Err? ==>
      r.Err? && r.error.Str() == "Excel parse error: " + SheetBlocks(libs.excel(fs[path]).value.sheets).error.Str()
  {
    var result := (
      var node :- Open(fs, path);
      var book :- libs.excel(node);
      var blocks :- SheetBlocks(book.sheets);
      Ok(Parsed(Join(blocks, "\n\n"), ExcelMeta(SheetNames(book.sheets), |book.sheets|), "xlsx")));
    WrapAsKind(DocumentParseError, "Excel parse error: ", result);
    WrapAs(DocumentParseError, "Excel parse error: ", result)
  }

  /** A workbook with an unreadable sheet fails, whatever the other sheets hold. */
  lemma OneBadSheetFailsAll(libs: Libraries, fs: Fs, path: string, i: nat)
    requires IsNormal(path) && path in fs && libs.excel(fs[path]).Ok?
    requires i < |libs.excel(fs[path]).value.sheets| && libs.excel(fs[path]).value.sheets[i].table.Err?
    ensures Parse(libs, fs, path).Err?
  {
  }

  /** Reading stops at the first unreadable sheet: its error is the one reported. */
  lemma {:induction false} FirstBadSheetReported(sheets: seq<Sheet>, i: nat)
    requires i < |sheets| && sheets[i].table.Err? && AllRead(sheets, i)
    ensures SheetBlocks(sheets) == Err(sheets[i].table.error)
    decreases i
  {
    if i > 0 {
      assert AllRead(sheets[1..], i - 1) by {
        assert forall k :: 0 <= k < i - 1 ==> sheets[1..][k] == sheets[k + 1];
      }
      assert sheets[0].table.Ok?;
      FirstBadSheetReported(sheets[1..], i - 1);
    }
  }

  /** The parse error names the first unreadable sheet's error, after `Excel parse error: `. */
  lemma FirstBadSheetMessage(libs: Libraries, fs: Fs, path: string, i: nat)
    requires IsNormal(path) && path in fs && libs.excel(fs[path]).Ok?
    requires var sheets := libs.excel(fs[path]).value.sheets;
      i < |sheets| && sheets[i].table.Err? && AllRead(sheets, i)
    ensures Parse(libs, fs, path).Err?
    ensures Parse(libs, fs, path).error.Str() == "Excel parse error: " + libs.excel(fs[path]).value.sheets[i].table.error.Str()
  {
    FirstBadSheetReported(libs.excel(fs[path]).value.sheets, i);
  }
}
