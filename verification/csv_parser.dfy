/** The CSV parser: the table as text, its data-row count and its column labels. */
module CsvParser {
  import opened Common
  import opened Errors
  import opened Text
  import opened Paths
  import opened FileSystem
  import opened Libraries
  import opened Parsed

  const Extensions: set<string> := {".csv"}

  function Parse(libs: Libraries, fs: Fs, path: string): (r: Result<Parsed>)
    requires IsNormal(path)
    ensures r.Ok? <==> Open(fs, path).Ok? && libs.csv(fs[path]).Ok?
    ensures r.Ok? ==> var frame := libs.csv(fs[path]).value;
      && r.value.content == frame.table
      && r.value.metadata == CsvMeta(frame.rowCount, frame.columns, |frame.columns|)
      && r.value.metadata.columnCount == |r.value.metadata.columns|
      && r.value.format == "csv"
    ensures r.Err? ==> r.error.Mcp? && r.error.kind == DocumentParseError && StartsWith(r.error.Str(), "CSV parse error: ")
    ensures Open(fs, path).Err? ==> r == Err(Raise(DocumentParseError, "CSV parse error: " + Open(fs, path).error.Str()))
    ensures Open(fs, path).Ok? && libs.csv(fs[path]).Err? ==>
      r == Err(Raise(DocumentParseError, "CSV parse error: " + libs.csv(fs[path]).error.Str()))
  {
    var result := (
      var node :- Open(fs, path);
      var frame :- libs.csv(node);
      Ok(Parsed(frame.table, CsvMeta(frame.rowCount, frame.columns, |frame.columns|), "csv")));
    WrapAsKind(DocumentParseError, "CSV parse error: ", result);
    WrapAs(DocumentParseError, "CSV parse error: ", result)
  }
}
