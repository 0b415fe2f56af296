/**
 * The `policy-read-document` tool: validate the arguments, fetch the source
 * with the first reader that supports it (always with empty credentials),
 * refuse a local copy larger than the configured limit, parse it, and wrap
 * the outcome in a success or error envelope.
 */
module ReadDocumentTool {
  import opened Common
  import opened Errors
  import opened Text
  import opened Paths
  import opened FileSystem
  import opened Remote
  import opened Libraries
  import opened Parsed
  import opened Config
  import opened ToolInput
  import Readers
  import Parsers
  import TextParser

  const Name := "policy-read-document"
  const Description := "Read and parse policy documents from various sources"

  /** The input model: `source` is required, `credentials_path` and `format` have defaults. */
  const InputSchema: Schema := map["source" := None, "credentials_path" := Some(""), "format" := Some("auto")]

  /** The error raised for a local copy above the limit. */
  function TooLarge(size: nat, limit: int): Error {
    Raise(DocumentTooLargeError, "Document size " + NatToString(size) + " exceeds limit " + IntToString(limit))
  }

  /** The result of the guarded part of the tool, and the file system it leaves behind. */
  datatype Attempt = Attempt(result: Result<Document>, fs: Fs)

  /** The body of the `try`: read, check the size, parse. */
  function Fetch(svc: Services, libs: Libraries, settings: Settings, fs: Fs, source: string): (r: Attempt)
    ensures Readers.ReadDocument(svc, fs, source, map[]).Err? ==>
      r == Attempt(Err(Readers.ReadDocument(svc, fs, source, map[]).error), fs)
    ensures Readers.ReadDocument(svc, fs, source, map[]).Ok? ==>
      var staged := Readers.ReadDocument(svc, fs, source, map[]).value;
      var size := Size(staged.fs[staged.path]);
      && r.fs == staged.fs
      && (size > MaxDocumentBytes(settings) ==> r.result == Err(TooLarge(size, MaxDocumentBytes(settings))))
      && (size <= MaxDocumentBytes(settings) ==> r.result == Parsers.ParseDocument(libs, staged.fs, staged.path))
    ensures r.result.Ok? ==> r.result.value.fileSize <= MaxDocumentBytes(settings)
  {
    match Readers.ReadDocument(svc, fs, source, map[])
    case Err(e) => Attempt(Err(e), fs)
    case Ok(staged) =>
      var size := Size(staged.fs[staged.path]);
      var limit := MaxDocumentBytes(settings);
      if size > limit then Attempt(Err(TooLarge(size, limit)), staged.fs)
      else Attempt(Parsers.ParseDocument(libs, staged.fs, staged.path), staged.fs)
  }

  /** The envelope for the guarded part's result: the parsed document, or `str(e)`. */
  function Envelop(result: Result<Document>): (r: Envelope)
    ensures r.Success? <==> result.Ok?
    ensures r.Success? ==> r.data == DocumentData(result.value)
    ensures r.Failure? ==> r.error == result.error.Str()
  {
    match result
    case Ok(d) => Success(DocumentData(d))
    case Err(e) => Failure(e.Str())
  }

  /**
   * `read_document`: invalid arguments raise; otherwise the envelope of the
   * guarded part for the validated `source`.
   */
  function ReadDocument(svc: Services, libs: Libraries, settings: Settings, fs: Fs, params: Params): (r: Run)
    ensures Validate(InputSchema, params).Rejected? ==> r == Run(Raised(Validate(InputSchema, params).issues), fs)
    ensures Validate(InputSchema, params).Accepted? ==>
      var a := Fetch(svc, libs, settings, fs, Validate(InputSchema, params).values["source"]);
      r == Run(Returned(Envelop(a.result)), a.fs)
  {
    match Validate(InputSchema, params)
    case Rejected(issues) => Run(Raised(issues), fs)
    case Accepted(values) =>
      var a := Fetch(svc, libs, settings, fs, values["source"]);
      Run(Returned(Envelop(a.result)), a.fs)
  }

  /** Arguments naming only a source. */
  function SourceOnly(source: string): Params {
    map["source" := Str(source)]
  }

  /** The validated source of well-formed arguments is the argument given. */
  lemma AcceptedSource(params: Params)
    requires "source" in params && params["source"].Str?
    requires forall n :: n in params ==> n in InputSchema && params[n].Str?
    ensures Validate(InputSchema, params).Accepted?
    ensures Validate(InputSchema, params).values["source"] == params["source"].s
  {
  }

  /**
   * Neither `format` nor `credentials_path` changes anything: the parser is
   * chosen by suffix and the credentials are always empty.
   */
  lemma FormatAndCredentialsIgnored(svc: Services, libs: Libraries, settings: Settings, fs: Fs, params: Params, field: string, v: string)
    requires "source" in params && params["source"].Str?
    requires forall n :: n in params ==> n in InputSchema && params[n].Str?
    requires field == "format" || field == "credentials_path"
    ensures ReadDocument(svc, libs, settings, fs, params[field := Str(v)]) == ReadDocument(svc, libs, settings, fs, SourceOnly(params["source"].s))
  {
    var source := params["source"].s;
    AcceptedSource(params[field := Str(v)]);
    AcceptedSource(SourceOnly(source));
  }

  /** A missing `source` is raised, not returned, and nothing is read. */
  lemma MissingSourceRaised(svc: Services, libs: Libraries, settings: Settings, fs: Fs, params: Params)
    requires "source" !in params
    ensures ReadDocument(svc, libs, settings, fs, params).outcome.Raised?
    ensures Missing("source") in ReadDocument(svc, libs, settings, fs, params).outcome.issues
    ensures ReadDocument(svc, libs, settings, fs, params).fs == fs
  {
    assert InputSchema["source"].None?;
  }

  /** An unknown argument is raised, whatever else is given. */
  lemma ExtraArgumentRaised(svc: Services, libs: Libraries, settings: Settings, fs: Fs, params: Params, extra: string)
    requires extra in params && extra !in InputSchema
    ensures ReadDocument(svc, libs, settings, fs, params).outcome.Raised?
    ensures ExtraForbidden(extra) in ReadDocument(svc, libs, settings, fs, params).outcome.issues
  {
  }

  /** A local copy exactly at the limit is parsed: only a strictly larger one is refused. */
  lemma AtLimitParsed(svc: Services, libs: Libraries, settings: Settings, fs: Fs, source: string)
    requires Readers.ReadDocument(svc, fs, source, map[]).Ok?
    requires var staged := Readers.ReadDocument(svc, fs, source, map[]).value;
      Size(staged.fs[staged.path]) == MaxDocumentBytes(settings)
    ensures var staged := Readers.ReadDocument(svc, fs, source, map[]).value;
      Fetch(svc, libs, settings, fs, source).result == Parsers.ParseDocument(libs, staged.fs, staged.path)
  {
  }

  /** An oversized document is refused before any parser runs: the parsing libraries make no difference. */
  lemma OversizeNeverParsed(svc: Services, libs1: Libraries, libs2: Libraries, settings: Settings, fs: Fs, params: Params)
    requires Validate(InputSchema, params).Accepted?
    requires var source := Validate(InputSchema, params).values["source"];
      && Readers.ReadDocument(svc, fs, source, map[]).Ok?
      && var staged := Readers.ReadDocument(svc, fs, source, map[]).value;
         Size(staged.fs[staged.path]) > MaxDocumentBytes(settings)
    ensures ReadDocument(svc, libs1, settings, fs, params) == ReadDocument(svc, libs2, settings, fs, params)
    ensures ReadDocument(svc, libs1, settings, fs, params).outcome.Returned?
    ensures ReadDocument(svc, libs1, settings, fs, params).outcome.envelope.Failure?
  {
  }

  /** The size-limit message names the size and the limit, which read back as numbers. */
  lemma TooLargeMessage(size: nat, settings: Settings)
    requires Valid(settings)
    ensures TooLarge(size, MaxDocumentBytes(settings)).kind == DocumentTooLargeError
    ensures TooLarge(size, MaxDocumentBytes(settings)).Str() ==
      "Document size " + NatToString(size) + " exceeds limit " + NatToString(MaxDocumentBytes(settings))
  {
  }

  /** A source no reader supports comes back as an error envelope naming it. */
  lemma UnknownSchemeEnvelope(svc: Services, libs: Libraries, settings: Settings, fs: Fs, rest: string)
    ensures ReadDocument(svc, libs, settings, fs, SourceOnly("ftp://" + rest)) ==
      Run(Returned(Failure("No reader for protocol: " + ("ftp://" + rest))), fs)
  {
    AcceptedSource(SourceOnly("ftp://" + rest));
    Readers.FtpUnsupported(rest);
  }

  /** A success envelope carries exactly the parser registry's document for the staged copy. */
  lemma SuccessIsParsed(svc: Services, libs: Libraries, settings: Settings, fs: Fs, params: Params)
    requires ReadDocument(svc, libs, settings, fs, params).outcome.Returned?
    requires ReadDocument(svc, libs, settings, fs, params).outcome.envelope.Success?
    ensures Validate(InputSchema, params).Accepted?
    ensures var source := Validate(InputSchema, params).values["source"];
      && Readers.ReadDocument(svc, fs, source, map[]).Ok?
      && var staged := Readers.ReadDocument(svc, fs, source, map[]).value;
         && Size(staged.fs[staged.path]) <= MaxDocumentBytes(settings)
         && ReadDocument(svc, libs, settings, fs, params).outcome.envelope.data ==
            DocumentData(Parsers.ParseDocument(libs, staged.fs, staged.path).value)
  {
  }

  /**
   * End to end: a local `.txt` file within the limit whose bytes decode is
   * returned as a success envelope holding the decoded text, its metadata and
   * the file's name, path and size, with nothing staged.
   */
  lemma LocalTextRead(svc: Services, libs: Libraries, settings: Settings, fs: Fs, p: string, data: Bytes)
    requires IsNormal(p) && !Contains(p, "://") && !StartsWith(p, "\\\\")
    requires p in fs && fs[p] == File(data) && |data| <= MaxDocumentBytes(settings)
    requires Suffix(p) == ".txt" && libs.utf8(data).Ok?
    ensures var content := TranslateNewlines(libs.utf8(data).value);
      ReadDocument(svc, libs, settings, fs, SourceOnly(p)) ==
        Run(Returned(Success(DocumentData(Document(
          Parsed(content, TextMeta(|data|, |SplitLines(content)|, "utf-8"), "txt"), Paths.Name(p), p, |data|)))), fs)
  {
    var content := TranslateNewlines(libs.utf8(data).value);
    var parsed := Parsed(content, TextMeta(|data|, |SplitLines(content)|, "utf-8"), "txt");
    var doc := Document(parsed, Paths.Name(p), p, |data|);
    AcceptedSource(SourceOnly(p));
    Readers.LocalPathInPlace(svc, fs, p, map[]);
    Parsers.TextDocument(libs, fs, p, data);
    assert Fetch(svc, libs, settings, fs, p) == Attempt(Ok(doc), fs);
  }
}
