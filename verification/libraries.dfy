/**
 * What the parsing libraries extract from a file (pdfplumber, python-docx,
 * pandas, the UTF-8 codec), as functions of the file-system node they open.
 * Each returns the extracted structure or the exception it raises.
 */
module Libraries {
  import opened Common
  import opened Errors
  import opened FileSystem

  /** `pdf.pages[i].extract_text()` for every page, and `pdf.metadata`. */
  datatype PdfDocument = PdfDocument(pageTexts: seq<string>, info: Option<map<string, string>>)

  /** `doc.paragraphs` texts, `len(doc.sections)` and the core properties (dates already printed). */
  datatype DocxDocument = DocxDocument(
    paragraphs: seq<string>,
    sections: nat,
    title: Option<string>,
    author: Option<string>,
    created: Option<string>,
    modified: Option<string>)

  /** One sheet: its name and `read_excel(...).to_string(index=False)`, which may raise. */
  datatype Sheet = Sheet(name: string, table: Result<string>)

  datatype Workbook = Workbook(sheets: seq<Sheet>)

  /** `read_csv(...)`: column labels, `len(df)` data rows and `df.to_string(index=False)`. */
  datatype Frame = Frame(columns: seq<string>, rowCount: nat, table: string)

  datatype Libraries = Libraries(
    pdf: Node -> Result<PdfDocument>,
    docx: Node -> Result<DocxDocument>,
    excel: Node -> Result<Workbook>,
    csv: Node -> Result<Frame>,
    /** Strict UTF-8 decoding of a file's bytes. */
    utf8: Bytes -> Result<string>
  )
}
