/**
 * The dictionaries the parsers return: extracted text, per-format metadata
 * and a format tag; `parse_document` adds the file's name, path and size.
 */
module Parsed {
  /** The `metadata` dictionary, one shape per parser. */
  datatype Metadata =
    | PdfMeta(pages: nat, info: map<string, string>)
    | DocxMeta(title: string, author: string, created: string, modified: string, paragraphs: nat, sections: nat)
    | ExcelMeta(sheets: seq<string>, sheetCount: nat)
    | CsvMeta(rows: nat, columns: seq<string>, columnCount: nat)
    | TextMeta(sizeBytes: nat, lines: nat, encoding: string)

  /** `{'content', 'metadata', 'format'}`. */
  datatype Parsed = Parsed(content: string, metadata: Metadata, format: string)

  /** `parse_document`'s result: the parser's dictionary plus `file_name`, `file_path` and `file_size`. */
  datatype Document = Document(parsed: Parsed, fileName: string, filePath: string, fileSize: nat)
}
