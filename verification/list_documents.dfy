/**
 * The `policy-list-documents` tool: validate the arguments, list the source
 * with the first reader that supports it (always with empty credentials),
 * keep the entries whose name matches the glob pattern unless the pattern is
 * `*`, and return them with their count.
 */
module ListDocumentsTool {
  import opened Common
  import opened Errors
  import opened FileSystem
  import opened Remote
  import opened ToolInput
  import Readers

  const Name := "policy-list-documents"
  const Description := "List available policy documents at a location"

  /** The input model: `source` is required, `credentials_path` and `pattern` have defaults. */
  const InputSchema: Schema := map["source" := None, "credentials_path" := Some(""), "pattern" := Some("*")]

  /** `fnmatch.fnmatch(name, pattern)`, supplied by the glob library. */
  type Matcher = (string, string) -> bool

  /** The entries of `files` whose name matches `pattern`, in their original order. */
  function Filter(files: seq<DirEntry>, pattern: string, fnmatch: Matcher): (r: seq<DirEntry>)
    ensures |r| <= |files|
    ensures forall e :: e in r <==> e in files && fnmatch(e.name, pattern)
    decreases |files|
  {
    if |files| == 0 then []
    else
      var rest := Filter(files[1..], pattern, fnmatch);
      assert forall e :: e in files <==> e == files[0] || e in files[1..];
      if fnmatch(files[0].name, pattern) then [files[0]] + rest else rest
  }

  /** Filtering distributes over concatenation, so the kept entries keep their relative order. */
  lemma {:induction false} FilterConcat(a: seq<DirEntry>, b: seq<DirEntry>, pattern: string, fnmatch: Matcher)
    ensures Filter(a + b, pattern, fnmatch) == Filter(a, pattern, fnmatch) + Filter(b, pattern, fnmatch)
    decreases |a|
  {
    if |a| == 0 {
      assert a + b == b;
    } else {
      assert (a + b)[1..] == a[1..] + b;
      FilterConcat(a[1..], b, pattern, fnmatch);
    }
  }

  /** When every name matches, nothing is dropped. */
  lemma {:induction false} FilterKeepsAll(files: seq<DirEntry>, pattern: string, fnmatch: Matcher)
    requires forall i :: 0 <= i < |files| ==> fnmatch(files[i].name, pattern)
    ensures Filter(files, pattern, fnmatch) == files
    decreases |files|
  {
    if |files| > 0 {
      FilterKeepsAll(files[1..], pattern, fnmatch);
    }
  }

  /** `files` with the pattern applied, unless it is `*`. */
  function Select(files: seq<DirEntry>, pattern: string, fnmatch: Matcher): (r: seq<DirEntry>)
    ensures pattern == "*" ==> r == files
    ensures pattern != "*" ==> r == Filter(files, pattern, fnmatch)
  {
    if pattern != "*" then Filter(files, pattern, fnmatch) else files
  }

  /**
   * `list_documents`: invalid arguments raise; otherwise the selected
   * listing with its length, or `str(e)` of the reader's failure. Nothing is
   * written to the local file system.
   */
  function ListDocuments(svc: Services, fnmatch: Matcher, fs: Fs, params: Params): (r: Run)
    ensures r.fs == fs
    ensures r.outcome.Raised? <==> Validate(InputSchema, params).Rejected?
    ensures r.outcome.Raised? ==> r.outcome.issues == Validate(InputSchema, params).issues
    ensures r.outcome.Returned? ==>
      var values := Validate(InputSchema, params).values;
      var listed := Readers.ListDocuments(svc, fs, values["source"], map[]);
      && (listed.Err? ==> r.outcome.envelope == Failure(listed.error.Str()))
      && (listed.Ok? ==> r.outcome.envelope == Success(Listing(Select(listed.value, values["pattern"], fnmatch), |Select(listed.value, values["pattern"], fnmatch)|)))
    ensures r.outcome.Returned? && r.outcome.envelope.Success? ==>
      r.outcome.envelope.data.Listing? && r.outcome.envelope.data.count == |r.outcome.envelope.data.files|
  {
    match Validate(InputSchema, params)
    case Rejected(issues) => Run(Raised(issues), fs)
    case Accepted(values) =>
      match Readers.ListDocuments(svc, fs, values["source"], map[])
      case Err(e) => Run(Returned(Failure(e.Str())), fs)
      case Ok(files) =>
        var kept := Select(files, values["pattern"], fnmatch);
        Run(Returned(Success(Listing(kept, |kept|))), fs)
  }

  /** Arguments naming a source and a pattern. */
  function SourceAndPattern(source: string, pattern: string): Params {
    map["source" := Str(source), "pattern" := Str(pattern)]
  }

  /** A source and a pattern are well-formed arguments, validated as given. */
  lemma AcceptedArguments(source: string, pattern: string)
    ensures Validate(InputSchema, SourceAndPattern(source, pattern)).Accepted?
    ensures Validate(InputSchema, SourceAndPattern(source, pattern)).values["source"] == source
    ensures Validate(InputSchema, SourceAndPattern(source, pattern)).values["pattern"] == pattern
  {
  }

  /** A source alone is accepted, with the default pattern `*`. */
  lemma AcceptedSourceOnly(source: string)
    ensures Validate(InputSchema, map["source" := Str(source)]).Accepted?
    ensures Validate(InputSchema, map["source" := Str(source)]).values["source"] == source
    ensures Validate(InputSchema, map["source" := Str(source)]).values["pattern"] == "*"
  {
  }

  /** With the default pattern the listing is the reader's, unfiltered. */
  lemma DefaultPatternKeepsAll(svc: Services, fnmatch: Matcher, fs: Fs, source: string)
    requires Readers.ListDocuments(svc, fs, source, map[]).Ok?
    ensures var files := Readers.ListDocuments(svc, fs, source, map[]).value;
      ListDocuments(svc, fnmatch, fs, map["source" := Str(source)]) == Run(Returned(Success(Listing(files, |files|))), fs)
  {
    AcceptedSourceOnly(source);
  }

  /**
   * Any other pattern keeps exactly the matching entries, in order; the `*`
   * shortcut agrees with a matcher for which `*` matches every name.
   */
  lemma PatternSelectsMatches(svc: Services, fnmatch: Matcher, fs: Fs, source: string, pattern: string)
    requires Readers.ListDocuments(svc, fs, source, map[]).Ok?
    requires pattern == "*" ==> forall n :: fnmatch(n, pattern)
    ensures var files := Readers.ListDocuments(svc, fs, source, map[]).value;
      var kept := Filter(files, pattern, fnmatch);
      ListDocuments(svc, fnmatch, fs, SourceAndPattern(source, pattern)) == Run(Returned(Success(Listing(kept, |kept|))), fs)
  {
    var files := Readers.ListDocuments(svc, fs, source, map[]).value;
    AcceptedArguments(source, pattern);
    if pattern == "*" {
      FilterKeepsAll(files, pattern, fnmatch);
    }
  }

  /** A reader failure is an error envelope with its message. */
  lemma ReaderFailureEnvelope(svc: Services, fnmatch: Matcher, fs: Fs, source: string, pattern: string)
    requires Readers.ListDocuments(svc, fs, source, map[]).Err?
    ensures ListDocuments(svc, fnmatch, fs, SourceAndPattern(source, pattern)) ==
      Run(Returned(Failure(Readers.ListDocuments(svc, fs, source, map[]).error.Str())), fs)
  {
    AcceptedArguments(source, pattern);
  }

  /** A missing `source` is raised, not returned. */
  lemma MissingSourceRaised(svc: Services, fnmatch: Matcher, fs: Fs, params: Params)
    requires "source" !in params
    ensures ListDocuments(svc, fnmatch, fs, params).outcome.Raised?
    ensures Missing("source") in ListDocuments(svc, fnmatch, fs, params).outcome.issues
  {
    assert InputSchema["source"].None?;
  }
}
