/**
 * The parser registry: a file's suffix, lower-cased, chooses the parser
 * (PDF, Word, spreadsheet, CSV, plain text, asked in that order); the parsed
 * dictionary is completed with the file's name, path and size.
 */
module Parsers {
  import opened Common
  import opened Errors
  import opened Text
  import opened Paths
  import opened FileSystem
  import opened Libraries
  import opened Parsed
  import PdfParser
  import DocxParser
  import ExcelParser
  import CsvParser
  import TextParser

  datatype ParserKind = Pdf | Docx | Excel | Csv | PlainText

  /** The registration order. */
  const Order: seq<ParserKind> := [Pdf, Docx, Excel, Csv, PlainText]

  function Extensions(k: ParserKind): set<string> {
    match k
    case Pdf => PdfParser.Extensions
    case Docx => DocxParser.Extensions
    case Excel => ExcelParser.Extensions
    case Csv => CsvParser.Extensions
    case PlainText => TextParser.Extensions
  }

  /** `supports_format`: the lower-cased extension is one of the parser's. */
  predicate SupportsFormat(k: ParserKind, extension: string) {
    Lower(extension) in Extensions(k)
  }

  /** Every extension some parser accepts. */
  const AllExtensions: set<string> :=
    PdfParser.Extensions + DocxParser.Extensions + ExcelParser.Extensions + CsvParser.Extensions + TextParser.Extensions

  /** No extension belongs to two parsers, so the registration order never decides. */
  lemma ExtensionsDisjoint(j: ParserKind, k: ParserKind)
    requires j != k
    ensures Extensions(j) * Extensions(k) == {}
  {
  }

  /** Every parser appears in the registration order. */
  lemma EveryKindRegistered()
    ensures forall k: ParserKind :: k in Order
  {
    forall k: ParserKind ensures k in Order {
      match k
      case Pdf => assert Order[0] == k;
      case Docx => assert Order[1] == k;
      case Excel => assert Order[2] == k;
      case Csv => assert Order[3] == k;
      case PlainText => assert Order[4] == k;
    }
  }

  /** The first of `order` that supports `extension`. */
  function FirstSupporting(order: seq<ParserKind>, extension: string): (r: Option<nat>)
    ensures r.Some? ==> r.value < |order| && SupportsFormat(order[r.value], extension)
    ensures r.Some? ==> forall j :: 0 <= j < r.value ==> !SupportsFormat(order[j], extension)
    ensures r.None? ==> forall j :: 0 <= j < |order| ==> !SupportsFormat(order[j], extension)
    decreases |order|
  {
    if |order| == 0 then None
    else if SupportsFormat(order[0], extension) then Some(0)
    else match FirstSupporting(order[1..], extension)
      case None => None
      case Some(i) => Some(i + 1)
  }

  /** `get_parser`: the first registered parser for an extension, matched without regard to case. */
  function GetParser(extension: string): (r: Result<ParserKind>)
    ensures r.Ok? <==> Lower(extension) in AllExtensions
    ensures r.Ok? ==> SupportsFormat(r.value, extension)
    ensures r.Err? ==> forall k: ParserKind :: !SupportsFormat(k, extension)
    ensures r.Err? ==> r.error == Raise(UnsupportedFormatError, "No parser for format: " + extension)
  {
    EveryKindRegistered();
    match FirstSupporting(Order, extension)
    case None =>
      assert !SupportsFormat(Order[0], extension) && !SupportsFormat(Order[1], extension) && !SupportsFormat(Order[2], extension);
      assert !SupportsFormat(Order[3], extension) && !SupportsFormat(Order[4], extension);
      Err(Raise(UnsupportedFormatError, "No parser for format: " + extension))
    case Some(i) => Ok(Order[i])
  }

  /** Whichever parser supports an extension is the one chosen. */
  lemma GetParserChoosesSupporter(extension: string, k: ParserKind)
    requires SupportsFormat(k, extension)
    ensures GetParser(extension) == Ok(k)
  {
    var r := GetParser(extension);
    if r.value != k {
      ExtensionsDisjoint(r.value, k);
    }
  }

  lemma LowerIdempotent(s: string)
    ensures Lower(Lower(s)) == Lower(s)
  {
  }

  /** Case does not matter: an extension and its lower-cased form choose the same parser. */
  lemma CaseInsensitive(extension: string)
    ensures GetParser(Lower(extension)).Ok? <==> GetParser(extension).Ok?
    ensures GetParser(extension).Ok? ==> GetParser(Lower(extension)) == GetParser(extension)
  {
    LowerIdempotent(extension);
  }

  /** An upper-case `.PDF` goes to the PDF parser. */
  lemma UpperCasePdf()
    ensures GetParser(".PDF") == Ok(Pdf)
  {
    assert Lower(".PDF") == ".pdf";
  }

  /**
   * A readable `.txt` file whose bytes decode parses to its decoded text with
   * the newlines translated, tagged `txt`, with the file's name, path and size.
   */
  lemma TextDocument(libs: Libraries, fs: Fs, p: string, data: Bytes)
    requires IsNormal(p) && p in fs && fs[p] == File(data)
    requires Suffix(p) == ".txt" && libs.utf8(data).Ok?
    ensures var content := TranslateNewlines(libs.utf8(data).value);
      ParseDocument(libs, fs, p) ==
        Ok(Document(Parsed(content, TextMeta(|data|, |SplitLines(content)|, "utf-8"), "txt"), Name(p), p, |data|))
  {
    var content := TranslateNewlines(libs.utf8(data).value);
    var parsed := Parsed(content, TextMeta(|data|, |SplitLines(content)|, "utf-8"), "txt");
    TxtIsPlainText();
    assert TextParser.FormatTag(p) == "txt";
    assert TextParser.Parse(libs, fs, p) == Ok(parsed);
  }

  /** A `.txt` file goes to the plain-text parser. */
  lemma TxtIsPlainText()
    ensures GetParser(".txt") == Ok(PlainText)
  {
    assert Lower(".txt") == ".txt";
  }

  /** A file without a suffix has no parser. */
  lemma NoSuffixNoParser()
    ensures GetParser("") == Err(Raise(UnsupportedFormatError, "No parser for format: "))
  {
    assert Lower("") == "";
    assert "No parser for format: " + "" == "No parser for format: ";
  }

  function ParseWith(k: ParserKind, libs: Libraries, fs: Fs, path: string): (r: Result<Parsed>)
    requires IsNormal(path)
    ensures r.Ok? ==> path in fs
    ensures r.Err? ==> r.error.Mcp? && r.error.kind == DocumentParseError
    ensures k == PlainText ==> r == TextParser.Parse(libs, fs, path)
  {
    match k
    case Pdf => PdfParser.Parse(libs, fs, path)
    case Docx => DocxParser.Parse(libs, fs, path)
    case Excel => ExcelParser.Parse(libs, fs, path)
    case Csv => CsvParser.Parse(libs, fs, path)
    case PlainText => TextParser.Parse(libs, fs, path)
  }

  /**
   * `parse_document`: the chosen parser's dictionary with the file's name,
   * path and size; an unknown suffix is `UnsupportedFormatError`, a parser
   * failure `DocumentParseError`.
   */
  function ParseDocument(libs: Libraries, fs: Fs, path: string): (r: Result<Document>)
    requires IsNormal(path)
    ensures GetParser(Suffix(path)).Err? ==> r == Err(GetParser(Suffix(path)).error)
    ensures r.Ok? ==> GetParser(Suffix(path)).Ok? && path in fs
    ensures r.Ok? ==> ParseWith(GetParser(Suffix(path)).value, libs, fs, path) == Ok(r.value.parsed)
    ensures r.Ok? ==> r.value.fileName == Name(path) && r.value.filePath == path && r.value.fileSize == Size(fs[path])
    ensures r.Err? ==> r.error.Mcp? && r.error.kind in {UnsupportedFormatError, DocumentParseError}
    ensures GetParser(Suffix(path)).Ok? ==>
      (r.Ok? <==> ParseWith(GetParser(Suffix(path)).value, libs, fs, path).Ok?)
    ensures GetParser(Suffix(path)).Ok? && ParseWith(GetParser(Suffix(path)).value, libs, fs, path).Err? ==>
      r == Err(ParseWith(GetParser(Suffix(path)).value, libs, fs, path).error)
  {
    var k :- GetParser(Suffix(path));
    var parsed :- ParseWith(k, libs, fs, path);
    // The parser has just opened the file, so `stat` finds it.
    Ok(Document(parsed, Name(path), path, Size(fs[path])))
  }
}
