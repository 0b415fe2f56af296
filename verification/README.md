# Policy document reader — a Dafny model

This project models the core of an MCP server that fetches policy documents from
several kinds of source, turns them into text with metadata, and offers two tools
to AI agents. It covers the following parts:

- **Reader registry.** S3, Git, SMB, HTTP and the local file system are tried in
  that fixed order. The first reader whose prefix test accepts the URI reads the
  document into a local copy, or lists a location.
- **Parser registry.** The copy's suffix, lower-cased, selects one of five parsers:
  PDF, Word, spreadsheet, CSV or plain text. The parser produces `content`,
  `metadata` and `format`. The registry adds the file's name, path and size.
- **`policy-read-document` tool.** It validates its arguments, reads with empty
  credentials, refuses a copy larger than `max_document_size_mb * 1024 * 1024`,
  parses the copy and returns a success or error envelope.
- **`policy-list-documents` tool.** It validates, lists, filters by a glob pattern
  unless the pattern is `*`, and returns the files with their count.
- **Tool registry.** Tools are kept by name in insertion order. An unknown name
  gives a "Tool not found" envelope.
- **Settings.** The numeric fields and their bounds.
- **Error taxonomy.** `MCPError` and its seven kinds.

## How the model is built

Everything is a pure function.

- **File system.** The local file system is a map from printed path (what
  `str(Path(...))` gives) to a file's bytes or a directory's entries.
- **Readers.** A reader returns the copy's path together with the file system after
  staging.
- **Outside code.** Network services (S3, Git, HTTP) and document libraries (PDF,
  Word, spreadsheet, CSV, the UTF-8 codec) are function-typed fields of the
  `Remote.Services` and `Libraries.Libraries` records. The glob matcher is a
  parameter of the list tool.
- **Exceptions.** An exception is `Errors.Error`: either an `MCPError` of some kind,
  or a built-in exception with the text `str(e)` gives.
- **Python string and path operations.** Those the code relies on are spelled out in
  `Text`, `Paths` and `Urls`:
  - `split`, `strip`, `replace`, `lower` and `splitlines`;
  - `PurePosixPath` parsing, `.name`, `.suffix`, `.parent` and `/`;
  - `urlparse` and `.hostname`;
  - universal-newline translation.

Some behaviours of the code are easy to miss; the model keeps them as written:

- **Unsupported URI.** A URI no reader accepts raises
  `UnsupportedFormatError("No reader for protocol: " + uri)`.
- **`file://` URIs.** The local reader does not strip `file://`, so `file:///x`
  names the relative path `file:/x`.
- **SMB.** The SMB reader calls `uuid.uuid4()` without importing `uuid`. Every SMB
  read therefore ends in `SourceConnectionError("SMB error: name 'uuid' is not
  defined")`, unless `urlparse` rejects the URI first.
- **Git.** A Git file missing from the clone raises `NotFoundError` inside the
  `try`. It therefore surfaces as a `SourceConnectionError` carrying the not-found
  text.

## Model

| member | source | states |
|---|---|---|
| Errors.NewError | src/utils/errors.py:5-11 | the error keeps its message as given and `str(e)` is that message; the details are the map given, or empty when none |
| Errors.WrapAsKind | src/services/readers/s3_reader.py:49-51 | the `except Exception as e: raise Kind(prefix + str(e))` wrapper keeps successes and turns every failure, whatever its type, into one error of the wrapper's kind whose text is the prefix followed by the original text |
| Errors.SevenKinds | src/utils/errors.py:14-46 | the taxonomy has exactly seven distinct kinds and every kind is one of them |
| Readers.FirstSupporting | src/services/readers/__init__.py:26-30 | the index found supports the URI and no earlier reader does; none found means no reader in the list supports it |
| Readers.GetReader | src/services/readers/__init__.py:17-31 | a reader is returned only if it supports the URI; the call fails exactly when no reader supports it, with `UnsupportedFormatError("No reader for protocol: " + uri)` |
| Readers.GetReaderFirstMatch | src/services/readers/__init__.py:18-30 | the chosen reader's position in the order S3, Git, SMB, HTTP, Local is preceded only by readers that reject the URI |
| Readers.UnsupportedExactly | src/services/readers/__init__.py:18-31 | resolution fails exactly for URIs containing `://` that start with none of `s3://`, `git://`, `smb://`, `\\`, `http://`, `https://`, `file://` |
| Readers.UncGoesToSmb | src/services/readers/__init__.py:20-23 | a UNC path is resolved to SMB although the local reader would also accept it |
| Readers.BarePathGoesToLocal | src/services/readers/__init__.py:18-24 | a string without `://` and not starting with `\\` is resolved to the local reader |
| Readers.FtpUnsupported | src/services/readers/__init__.py:31 | `ftp://...` has no reader and the error names the URI |
| Readers.ReadWith | src/services/readers/__init__.py:38 | a successful read yields a normalised path present in the resulting file system; remote readers fail only with `SourceConnectionError`, the local reader only with `NotFoundError("File not found: " + uri)` |
| Readers.ListWith | src/services/readers/__init__.py:47 | the Git, SMB and HTTP listings are always empty; an S3 listing fails only with `SourceConnectionError` |
| Readers.ReadDocument | src/services/readers/__init__.py:33-40 | the chosen reader receives the same URI and credentials and its copy is returned unchanged; failures are `UnsupportedFormatError` (only when no reader matches), `SourceConnectionError` or `NotFoundError` |
| Readers.ListDocuments | src/services/readers/__init__.py:42-49 | an unresolvable URI fails with the registry's error; otherwise the chosen reader's listing is returned unchanged, empty for Git, SMB and HTTP |
| Readers.LocalIgnoresCredentials | src/services/readers/local_reader.py:17-48 | local reads and listings depend neither on the credentials nor on the remote services |
| Readers.LocalPathInPlace | src/services/readers/local_reader.py:21-27 | an existing printed local path (no `://`, not UNC) is read in place with the file system unchanged |
| LocalReader.ReadFile | src/services/readers/local_reader.py:17-27 | the read succeeds exactly when something exists at the path; the path is returned in place, normalised, without copying and without stripping `file://`; otherwise `NotFoundError("File not found: " + uri)` |
| LocalReader.ReadInPlace | src/services/readers/local_reader.py:21-27 | an existing printed path is returned as it is and the file system is unchanged |
| LocalReader.FileUriStaysRelative | src/services/readers/local_reader.py:21 | a `file://` URI is looked up as a relative path whose first segment is `file:` |
| LocalReader.FileEntries | src/services/readers/local_reader.py:38-46 | every entry is a regular file among the given paths, named by its last segment and sized by its bytes; every regular file among the paths has an entry |
| LocalReader.ListFiles | src/services/readers/local_reader.py:29-48 | the listing succeeds exactly for an existing directory; a missing path is `NotFoundError("Directory not found: " + uri)`; the entries are exactly the directory's regular-file children, each named by its path's last segment (`file_path.name`) with its size |
| S3Reader.ClientFor | src/services/readers/s3_reader.py:33-38 | the client takes the access key and secret when present, and the region from the credentials, defaulting to `us-east-1` |
| S3Reader.Locate | src/services/readers/s3_reader.py:28-30 | the key never starts with `/` (leading slashes are removed) |
| S3Reader.LocateComposed | src/services/readers/s3_reader.py:22-30 | `s3://bucket/path/to/key` decomposes into exactly that bucket and the whole key, slashes inside the key included |
| S3Reader.ReadFile | src/services/readers/s3_reader.py:18-51 | a successful read stages a regular file directly in the staging directory; every failure is `SourceConnectionError` with the prefix `S3 error: `, never a not-found error |
| S3Reader.SameNameSameCopy | src/services/readers/s3_reader.py:41-42 | two keys with the same last segment are staged at the same path |
| S3Reader.DownloadIsStaged | src/services/readers/s3_reader.py:40-47 | a successful download of `s3://bucket/path/to/name` is staged as `name` (`Path(key).name`) directly in the staging directory and holds exactly the downloaded bytes |
| S3Reader.Entries | src/services/readers/s3_reader.py:71-78 | one entry per listed object, in order, named by the key's last segment, with path `s3://bucket/key` and the object's size |
| S3Reader.EntryLocatesObject | src/services/readers/s3_reader.py:28-78 | a listed entry's `path` locates back to the object's bucket and key, so reading it stages the copy under the entry's `name` |
| S3Reader.ListFiles | src/services/readers/s3_reader.py:53-84 | a successful listing is the entries of exactly the objects listed for the bucket and key prefix; failures are `SourceConnectionError` with the prefix `S3 error: ` |
| GitReader.PathParts | src/services/readers/git_reader.py:33 | the URL path without outer slashes split on `/`: never empty, no piece contains `/` |
| GitReader.Locate | src/services/readers/git_reader.py:29-38 | fewer than two path parts raise `IndexError`; otherwise organisation and repository are the first two parts, the branch the third or `main`, the file path the rest joined with `/` or empty |
| GitReader.LocateComposed | src/services/readers/git_reader.py:29-38 | `git://host/org/repo/branch/file` locates exactly those parts, keeping inner slashes of the file path |
| GitReader.Sync | src/services/readers/git_reader.py:43-61 | an existing repository directory is pulled; otherwise the repository is cloned from the `https` URL (with the token as user info) into the repository directory at the branch |
| GitReader.Find | src/services/readers/git_reader.py:43-69 | the file is found exactly when the pull or clone succeeds and the file path inside the repository directory exists in its result, and the result is that file system; a failed pull or clone is passed on |
| GitReader.ExistingFileIsRead | src/services/readers/git_reader.py:43-69 | a file present after a successful pull or clone is read, at `repo_dir / file_path` in the file system the pull or clone leaves |
| GitReader.ReadFile | src/services/readers/git_reader.py:19-73 | a read succeeds exactly when the URL locates a target, the pull or clone succeeds and `repo_dir / file_path` exists in its result, and returns that path in that file system; every failure is `SourceConnectionError` whose text is `Git error: ` followed by the failure's own text |
| GitReader.MissingFileIsConnectionError | src/services/readers/git_reader.py:64-73 | a file missing from the clone surfaces as `SourceConnectionError("Git error: File not found in repository: " + file_path)` |
| GitReader.ExistingCloneIgnoresCredentials | src/services/readers/git_reader.py:43-54 | when the repository directory already exists the credentials make no difference, and a successful read sees the file system the pull leaves |
| GitReader.MissingCloneIsCloned | src/services/readers/git_reader.py:47-61 | without a repository directory, a successful read sees the file system of a clone from the token-carrying URL into the repository directory at the URL's branch |
| GitReader.NoTokenNoUserInfo | src/services/readers/git_reader.py:51-54 | without a non-empty token the clone URL is unchanged |
| GitReader.TokenBecomesUserInfo | src/services/readers/git_reader.py:51-54 | a non-empty token is embedded as `https://token@...`; when the rest of the URL holds no further `https://`, the clone URL is exactly `https://token@host/org/repo` |
| GitReader.ListFiles | src/services/readers/git_reader.py:75-81 | Git listings are always empty |
| HttpReader.AuthHeaders | src/services/readers/http_reader.py:24-29 | `Authorization: Bearer` with the API key if given, else the token if given, else no header at all |
| HttpReader.ApiKeyBeatsToken | src/services/readers/http_reader.py:26-29 | with both an API key and a token, the API key is used |
| HttpReader.SecondField | src/services/readers/http_reader.py:39 | the second field of a split never contains the separator |
| HttpReader.FileName | src/services/readers/http_reader.py:37-41 | without `filename=` in the disposition the name is `Path(urlparse(url).path).name`, or `downloaded_file` when that is empty, failing only when `urlparse` does; it is then a single path segment |
| HttpReader.UrlNameRoundTrip | src/services/readers/http_reader.py:36-41 | with no disposition, `https://host/dir/name` gives the name `name` |
| HttpReader.RootUrlDefaultName | src/services/readers/http_reader.py:36-41 | with no disposition, `https://host/` gives `downloaded_file` |
| HttpReader.QuotedNameRoundTrip | src/services/readers/http_reader.py:37-39 | `filename="name"` yields exactly `name` |
| HttpReader.AbsoluteNameLeavesStagingDir | src/services/readers/http_reader.py:44 | an absolute file name replaces the staging directory when joined |
| HttpReader.Fetch | src/services/readers/http_reader.py:32-48 | a transport failure, a non-2xx status, a failed file name or a failed write each fail with their own error; a 2xx response whose file name is derived and whose body can be written is staged at `staging / filename` with exactly that body |
| HttpReader.ReadFile | src/services/readers/http_reader.py:18-52 | a successful fetch is returned unchanged, so a good 2xx response is read; every failure is `SourceConnectionError` whose text is `HTTP error: ` followed by the failure's own text |
| HttpReader.ErrorStatusNotStaged | src/services/readers/http_reader.py:34 | a non-2xx response is never staged and is reported as an HTTP connection error carrying the status error's text |
| HttpReader.ListFiles | src/services/readers/http_reader.py:54-60 | HTTP listings are always empty |
| SmbReader.Locate | src/services/readers/smb_reader.py:29-33 | the share is the second piece of `path.split('/', 2)` and never contains `/`; decomposition fails only when `urlparse` does |
| SmbReader.LocateComposed | src/services/readers/smb_reader.py:29-33 | `smb://server/share/file` locates exactly that server, share and file path, keeping inner slashes |
| SmbReader.ReadFile | src/services/readers/smb_reader.py:23-74 | every read fails with `SourceConnectionError` prefixed `SMB error: `; for any parseable URL the text is the `uuid` name error |
| SmbReader.NoReadSucceeds | src/services/readers/smb_reader.py:40 | no SMB read succeeds, whatever the URI, credentials or file system |
| SmbReader.ListFiles | src/services/readers/smb_reader.py:76-82 | SMB listings are always empty |
| Parsers.ExtensionsDisjoint | src/services/parsers/__init__.py:18-24 | no extension belongs to two parsers |
| Parsers.FirstSupporting | src/services/parsers/__init__.py:28-30 | the found index supports the extension and no earlier parser does; none found means no parser in the order supports it |
| Parsers.GetParser | src/services/parsers/__init__.py:26-31 | a parser is found exactly when the lower-cased extension is in the union of the five sets, and it supports the extension; otherwise `UnsupportedFormatError("No parser for format: " + ext)` and no parser supports it |
| Parsers.GetParserChoosesSupporter | src/services/parsers/__init__.py:26-30 | whichever parser supports an extension is the one returned, so the order never decides |
| Parsers.CaseInsensitive | src/services/parsers/__init__.py:29 | an extension and its lower-cased form choose the same parser |
| Parsers.UpperCasePdf | src/services/parsers/pdf_parser.py:44-46 | `.PDF` goes to the PDF parser |
| Parsers.NoSuffixNoParser | src/services/parsers/__init__.py:35-38 | a file without a suffix has no parser |
| Parsers.TxtIsPlainText | src/services/parsers/text_parser.py:41-43 | `.txt` goes to the plain-text parser |
| Parsers.TextDocument | src/services/parsers/__init__.py:33-46 | a `.txt` file whose bytes decode parses to the translated text, its metadata, format `txt`, and the file's name, path and byte size |
| Parsers.ParseWith | src/services/parsers/__init__.py:39 | a parser succeeds only on an existing path and fails only with `DocumentParseError`; the plain-text kind gives the text parser's result |
| Parsers.ParseDocument | src/services/parsers/__init__.py:33-46 | the suffix chooses the parser; once chosen, the document is parsed exactly when that parser succeeds, and is its output with the file's name, printed path and size added; an unknown suffix gives the registry's error and a parser failure is passed on unchanged |
| PdfParser.Blocks | src/services/parsers/pdf_parser.py:28-32 | there is one block per page with text, and every block is `[Page n]` and the text of a page with text, where n is the page's 1-based position |
| PdfParser.BlocksCountExtremes | src/services/parsers/pdf_parser.py:28-32 | with text on every page every page has a block; with text on none there is no block |
| PdfParser.BlocksConcat | src/services/parsers/pdf_parser.py:29-32 | the blocks of two runs of pages are the first run's blocks followed by the second's, numbered on from where the first run ends, so blocks keep page order |
| PdfParser.BlocksComplete | src/services/parsers/pdf_parser.py:29-32 | every page with text gets its block, however empty and non-empty pages mix |
| PdfParser.RenderPages | src/services/parsers/pdf_parser.py:18-35 | the page loop produces the `"\n\n"`-joined blocks of the pages with text |
| PdfParser.SkippedPageKeepsNumbering | src/services/parsers/pdf_parser.py:29-32 | after a page without text, the next page is still labelled by its own position |
| PdfParser.LabelReadsBack | src/services/parsers/pdf_parser.py:32 | the page tag reads back as the page number |
| PdfParser.Parse | src/services/parsers/pdf_parser.py:13-42 | parsing succeeds exactly when the file opens and the PDF library reads it; content is then the page blocks, `pages` counts every page, the document metadata defaults to `{}`, the format is `pdf`; a failure to open or read is `DocumentParseError` with text `PDF parse error: ` plus that failure's text |
| DocxParser.NonBlank | src/services/parsers/docx_parser.py:21 | exactly the paragraphs that are not blank, unchanged |
| DocxParser.NonBlankConcat | src/services/parsers/docx_parser.py:21 | filtering distributes over concatenation, so paragraph order and repeated paragraphs are kept |
| DocxParser.NonBlankSingle | src/services/parsers/docx_parser.py:21 | one paragraph is kept exactly when it is not blank |
| DocxParser.BlankParagraphIgnored | src/services/parsers/docx_parser.py:21-22 | inserting a blank paragraph anywhere does not change the content |
| DocxParser.Parse | src/services/parsers/docx_parser.py:13-43 | parsing succeeds exactly when the file opens and the Word library loads it; content is then the non-blank paragraphs joined by a blank line; title, author and dates default to `''`; `paragraphs` counts every paragraph; the format is `docx` even for `.doc`; a failure to open or load is `DocumentParseError` with text `DOCX parse error: ` plus that failure's text |
| ExcelParser.SheetBlocks | src/services/parsers/excel_parser.py:22-28 | one `[Sheet: name]` block per sheet, in order, when every sheet reads; otherwise the error of the first unreadable sheet, every earlier sheet having read |
| ExcelParser.SheetNames | src/services/parsers/excel_parser.py:30-33 | the sheet names in order |
| ExcelParser.Parse | src/services/parsers/excel_parser.py:13-43 | parsing succeeds exactly when the file opens, the workbook loads and every sheet reads; content is then the sheet blocks joined by a blank line; `sheets` and `sheet_count` are the names and their number; the format is `xlsx` even for `.xls`; each failure (open, load, first unreadable sheet) is `DocumentParseError` with text `Excel parse error: ` plus that failure's text |
| ExcelParser.OneBadSheetFailsAll | src/services/parsers/excel_parser.py:22-23 | one unreadable sheet fails the whole workbook |
| ExcelParser.FirstBadSheetReported | src/services/parsers/excel_parser.py:22-23 | reading stops at the first unreadable sheet, whose error is the one reported |
| ExcelParser.FirstBadSheetMessage | src/services/parsers/excel_parser.py:22-43 | the parse error reads `Excel parse error: ` followed by the first unreadable sheet's error |
| CsvParser.Parse | src/services/parsers/csv_parser.py:13-38 | parsing succeeds exactly when the file opens and `read_csv` reads it; content is then the table text; `rows`, `columns` and `column_count` agree with the frame, the count being the number of columns; the format is `csv`; a failure to open or read is `DocumentParseError` with text `CSV parse error: ` plus that failure's text |
| TextParser.FormatTag | src/services/parsers/text_parser.py:34 | the format tag is the suffix without its dot, case kept, or empty when there is no suffix |
| TextParser.Parse | src/services/parsers/text_parser.py:13-39 | parsing succeeds exactly when the file's bytes are read and decode as UTF-8; content is then the decoded text with line endings translated to `\n`; `size_bytes` is the file's byte count, `lines` the `splitlines` count, `encoding` is `utf-8`; a failure to read or decode is `DocumentParseError` with text `Text parse error: ` plus that failure's text |
| TextParser.TrailingNewlineNotCounted | src/services/parsers/text_parser.py:27 | a trailing newline does not add a line |
| ToolInput.IssuesComplete | src/tools/policy/read_document.py:12-29 | every missing required field, non-string value and unknown argument is reported |
| ToolInput.IssuesSound | src/tools/policy/read_document.py:12-29 | every reported issue is a real fault of the arguments |
| ToolInput.Validate | src/tools/policy/read_document.py:52 | validation accepts exactly arguments with every required field present, only known fields and only string values; accepted values are the arguments or else the defaults; a rejection reports the issues |
| ReadDocumentTool.Fetch | src/tools/policy/read_document.py:59-78 | the reader is called with empty credentials; its failure is returned as is; a copy larger than the byte limit is `DocumentTooLargeError` without parsing; otherwise the result is the parser registry's; a parsed document is never larger than the limit |
| ReadDocumentTool.Envelop | src/tools/policy/read_document.py:89-99 | success carries exactly the parsed document; any failure becomes an error envelope with `str(e)` |
| ReadDocumentTool.ReadDocument | src/tools/policy/read_document.py:32-99 | invalid arguments are raised and nothing is read; valid ones give the envelope of the guarded steps for the validated source |
| ReadDocumentTool.AcceptedSource | src/tools/policy/read_document.py:12-29 | well-formed arguments are accepted with the given source |
| ReadDocumentTool.FormatAndCredentialsIgnored | src/tools/policy/read_document.py:19-26 | neither `format` nor `credentials_path` changes the outcome |
| ReadDocumentTool.MissingSourceRaised | src/tools/policy/read_document.py:15-18 | a missing `source` is raised, not returned, and nothing is read |
| ReadDocumentTool.ExtraArgumentRaised | src/tools/policy/read_document.py:28-29 | an unknown argument is raised |
| ReadDocumentTool.AtLimitParsed | src/tools/policy/read_document.py:72 | a copy exactly at the limit is parsed |
| ReadDocumentTool.OversizeNeverParsed | src/tools/policy/read_document.py:72-78 | an oversized copy gives an error envelope and the parsing libraries make no difference |
| ReadDocumentTool.TooLargeMessage | src/tools/policy/read_document.py:73-75 | the size error names the size and the limit in decimal |
| ReadDocumentTool.UnknownSchemeEnvelope | src/tools/policy/read_document.py:94-99 | an `ftp://` source is an error envelope `No reader for protocol: ...` and the file system is unchanged |
| ReadDocumentTool.SuccessIsParsed | src/tools/policy/read_document.py:67-92 | a success envelope comes from a copy within the limit and carries exactly the parser registry's document for it |
| ReadDocumentTool.LocalTextRead | src/tools/policy/read_document.py:59-92 | a local `.txt` file within the limit whose bytes decode is returned as a success envelope with the decoded text, its metadata and the file's name, path and size, and nothing is staged |
| ListDocumentsTool.Filter | src/tools/policy/list_documents.py:59-60 | an entry is kept exactly when it was listed and its name matches |
| ListDocumentsTool.FilterConcat | src/tools/policy/list_documents.py:59-60 | filtering distributes over concatenation, so kept entries keep their original order |
| ListDocumentsTool.FilterKeepsAll | src/tools/policy/list_documents.py:59-60 | when every name matches nothing is dropped |
| ListDocumentsTool.Select | src/tools/policy/list_documents.py:58-60 | pattern `*` keeps the listing as it is; any other pattern filters it |
| ListDocumentsTool.ListDocuments | src/tools/policy/list_documents.py:28-83 | the file system is untouched; invalid arguments are raised; a reader failure is an error envelope with `str(e)`; a success carries the selected entries and a count equal to their number |
| ListDocumentsTool.AcceptedArguments | src/tools/policy/list_documents.py:8-25 | a source and a pattern are accepted as given |
| ListDocumentsTool.DefaultPatternKeepsAll | src/tools/policy/list_documents.py:19-22 | with no pattern given the reader's listing is returned whole |
| ListDocumentsTool.PatternSelectsMatches | src/tools/policy/list_documents.py:58-76 | a pattern keeps exactly the matching entries in order; the `*` shortcut agrees with a matcher for which `*` matches everything |
| ListDocumentsTool.ReaderFailureEnvelope | src/tools/policy/list_documents.py:78-83 | a reader failure is an error envelope with its text |
| ListDocumentsTool.MissingSourceRaised | src/tools/policy/list_documents.py:40 | a missing `source` is raised, not returned |
| Tools.IndexOf | src/tools/__init__.py:34-36 | the position found holds the name; none is found exactly when no entry has it |
| Tools.GetTool | src/tools/__init__.py:34-36 | an unregistered name gives `None`; a found tool is registered under that name |
| Tools.GetToolUnique | src/tools/__init__.py:27-36 | in a registry without duplicate names, the tool found for a name is the one registered under it |
| Tools.RegisterTool | src/tools/__init__.py:27-32 | re-registering a name keeps the name order; a new name is appended |
| Tools.RegisterToolSpec | src/tools/__init__.py:27-36 | registering keeps names unique, makes the name find the new tool and leaves every other name's tool unchanged |
| Tools.ListTools | src/tools/__init__.py:38-40 | one metadata per registered tool, in insertion order |
| Tools.Initial | src/tools/__init__.py:9-25 | after construction exactly the read tool and then the list tool are registered, each under its metadata's name |
| Tools.ExecuteTool | src/tools/__init__.py:42-52 | an unknown name gives `Tool not found: name` and calls no handler; a known name gives its handler's result unchanged |
| Tools.InitialDispatch | src/tools/__init__.py:42-52 | in the initial registry the two tool names reach their tools and every other name is not found |
| Config.Violations | src/config.py:19-71 | exactly the fields whose bounds fail are reported, and nothing is reported exactly when every bound holds |
| Config.BoundsMeanValid | src/config.py:19-71 | the bound list says exactly what validity says |
| Config.Load | src/config.py:7-77 | settings load exactly when every bound holds and are then unchanged; otherwise exactly the failing fields are reported: each reported field fails and every failing field is reported |
| Config.BothBadPortsReported | src/config.py:19-42 | two ports out of range are both reported, not just the first |
| Config.DefaultsLoad | src/config.py:18-73 | the defaults satisfy every bound and the document limit defaults to 100 MB |
| Config.MaxDocumentBytes | src/config.py:64 | for valid settings the byte limit lies between 2^20 and 500·2^20 and is a whole number of mebibytes |
| Config.PrivilegedPortRejected | src/config.py:19 | port 80 is rejected and reported by name |

## Left out

- Logging and audit records are left out (the logger is not part of this model).
  The `agent_id` argument, used only for logging, is dropped from the tool
  signatures.
- async/await and concurrent calls are not modelled; each call is one sequential
  step.
- S3, Git and HTTP transfers, and the PDF, Word, spreadsheet, CSV and UTF-8
  libraries, are oracles. Nothing is assumed about their outputs beyond their
  types.
- `fnmatch` glob matching is an oracle parameter of the list tool. Only the
  `*` shortcut is in the tool's own code.
- The `modified` timestamps of listing entries are not modelled.
- The JSON-schema part of each tool's metadata is not modelled.
- Loading settings from the environment or a `.env` file is not modelled. Only the
  bounds and defaults are.
- Staging-directory creation (`mkdir`) is not modelled. The staging directory is
  whatever the file system holds.
- A failed read returns the original file system. A clone left behind by a Git read
  that then fails is not kept.
- SMB connection, session and file transfer are not modelled, because no SMB read
  gets past the `uuid` call. This includes the username, password, domain default
  and staged name.
- Text.Lower: models `str.lower` for ASCII letters and the Kelvin sign only. No other
  character lower-cases into the ASCII extension names, so parser choice is unaffected.
  `Urls.Hostname` also uses it, so a host with non-ASCII upper-case letters is not
  lower-cased as Python would. This affects an S3 bucket, a Git host in
  `GitReader.RepoDir` and `GitReader.RepoUrl`, and an SMB server; `Urls.IsPlainHost`
  hosts are unaffected.
- ToolInput.Validate: treats a value either as a string or as not one. Pydantic's lax
  coercions, such as bytes to string, are not modelled. The validation error's
  message text is reduced to the set of issues.
- Urls.UrlParse: does not model bracketed IPv6 hosts, `%` zone identifiers, or the
  stripping of control characters that `urlsplit` performs. It also leaves out
  `urlsplit`'s NFKC check of a non-ASCII network location (`_checknetloc`), which
  raises `ValueError` when normalisation introduces `/`, `?`, `#`, `@` or `:`. The
  model accepts such URLs.
- HttpReader.FileName: a name taken from a `filename=` disposition is not constrained
  beyond what `QuotedNameRoundTrip` states. The URL-derived name is given exactly. It may contain `/` and then leave the
  staging directory, as `AbsoluteNameLeavesStagingDir` shows.
