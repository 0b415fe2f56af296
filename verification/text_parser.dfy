/**
 * The plain-text parser: the file decoded as UTF-8 in text mode (so `\r\n`
 * and `\r` read as `\n`), its size on disk, its line count and the suffix
 * without the dot as the format tag.
 */
module TextParser {
  import opened Common
  import opened Errors
  import opened Text
  import opened Paths
  import opened FileSystem
  import opened Libraries
  import opened Parsed

  const Extensions: set<string> := {".txt", ".md", ".markdown", ".json", ".yaml", ".yml"}

  /** `suffix.lstrip('.')` for a suffix, which has exactly one dot, at its start. */
  function DropDot(suffix: string): (r: string)
    requires suffix == "" || (|suffix| >= 2 && suffix[0] == '.' && '.' !in suffix[1..])
    ensures suffix == "" ==> r == ""
    ensures suffix != "" ==> suffix == "." + r
  {
    if suffix == "" then ""
    else
      var rest := suffix[1..];
      assert rest[0] in rest;
      assert LStrip(rest, '.') == rest;
      assert suffix == "." + rest;
      LStrip(suffix, '.')
  }

  /** `path.suffix.lstrip('.')`: the extension without its dot. */
  function FormatTag(path: string): (r: string)
    ensures Suffix(path) == "" ==> r == ""
    ensures Suffix(path) != "" ==> Suffix(path) == "." + r
  {
    DropDot(Suffix(path))
  }

  function Parse(libs: Libraries, fs: Fs, path: string): (r: Result<Parsed>)
    requires IsNormal(path)
    ensures r.Ok? <==> ReadBytes(fs, path).Ok? && libs.utf8(fs[path].data).Ok?
    ensures r.Ok? ==> var content := r.value.content;
      && content == TranslateNewlines(libs.utf8(fs[path].data).value)
      && '\r' !in content
      && r.value.metadata == TextMeta(|fs[path].data|, |SplitLines(content)|, "utf-8")
      && r.value.format == FormatTag(path)
    ensures r.Err? ==> r.error.Mcp? && r.error.kind == DocumentParseError && StartsWith(r.error.Str(), "Text parse error: ")
    ensures ReadBytes(fs, path).Err? ==> r == Err(Raise(DocumentParseError, "Text parse error: " + ReadBytes(fs, path).error.Str()))
    ensures ReadBytes(fs, path).Ok? && libs.utf8(fs[path].data).Err? ==>
      r == Err(Raise(DocumentParseError, "Text parse error: " + libs.utf8(fs[path].data).error.Str()))
  {
    var result := (
      var data :- ReadBytes(fs, path);
      var decoded :- libs.utf8(data);
      var content := TranslateNewlines(decoded);
      // The file was just read, so `stat` finds it: its size is the number of bytes read.
      Ok(Parsed(content, TextMeta(|data|, |SplitLines(content)|, "utf-8"), FormatTag(path))));
    WrapAsKind(DocumentParseError, "Text parse error: ", result);
    WrapAs(DocumentParseError, "Text parse error: ", result)
  }

  /** A final line break does not count as an extra line. */
  lemma TrailingNewlineNotCounted(s: string)
    requires |s| > 0 && !IsLineBreak(s[|s| - 1]) && '\r' !in s
    ensures |SplitLines(TranslateNewlines(s + "\n"))| == |SplitLines(TranslateNewlines(s))|
  {
    TranslateKeepsPlainText(s);
    TranslateKeepsPlainText(s + "\n");
    TrailingNewlineAddsNoLine(s);
  }
}
