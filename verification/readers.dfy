/**
 * The reader registry: readers are asked in the fixed order S3, Git, SMB,
 * HTTP, local, and the first that supports a URI reads or lists it.
 */
module Readers {
  import opened Common
  import opened Errors
  import opened Text
  import opened Paths
  import opened FileSystem
  import opened Remote
  import LocalReader
  import S3Reader
  import GitReader
  import HttpReader
  import SmbReader

  datatype ReaderKind = S3 | Git | Smb | Http | Local

  /** The registration order, which decides ties. */
  const Order: seq<ReaderKind> := [S3, Git, Smb, Http, Local]

  /** Every reader appears in the registration order. */
  lemma EveryKindRegistered()
    ensures forall k: ReaderKind :: k in Order
  {
    forall k: ReaderKind ensures k in Order {
      match k
      case S3 => assert Order[0] == k;
      case Git => assert Order[1] == k;
      case Smb => assert Order[2] == k;
      case Http => assert Order[3] == k;
      case Local => assert Order[4] == k;
    }
  }

  predicate Supports(k: ReaderKind, uri: string) {
    match k
    case S3 => S3Reader.Supports(uri)
    case Git => GitReader.Supports(uri)
    case Smb => SmbReader.Supports(uri)
    case Http => HttpReader.Supports(uri)
    case Local => LocalReader.Supports(uri)
  }

  /** The first of `order` that supports `uri`. */
  function FirstSupporting(order: seq<ReaderKind>, uri: string): (r: Option<nat>)
    ensures r.Some? ==> r.value < |order| && Supports(order[r.value], uri)
    ensures r.Some? ==> forall j :: 0 <= j < r.value ==> !Supports(order[j], uri)
    ensures r.None? ==> forall j :: 0 <= j < |order| ==> !Supports(order[j], uri)
    decreases |order|
  {
    if |order| == 0 then None
    else if Supports(order[0], uri) then Some(0)
    else match FirstSupporting(order[1..], uri)
      case None => None
      case Some(i) => Some(i + 1)
  }

  /** `get_reader`: the first supporting reader, or `UnsupportedFormatError`. */
  function GetReader(uri: string): (r: Result<ReaderKind>)
    ensures r.Ok? ==> Supports(r.value, uri)
    ensures r.Err? <==> forall k: ReaderKind :: !Supports(k, uri)
    ensures r.Err? ==> r.error == Raise(UnsupportedFormatError, "No reader for protocol: " + uri)
  {
    match FirstSupporting(Order, uri)
    case None =>
      EveryKindRegistered();
      Err(Raise(UnsupportedFormatError, "No reader for protocol: " + uri))
    case Some(i) => Ok(Order[i])
  }

  /** A reader wins only over those registered after it. */
  lemma GetReaderFirstMatch(uri: string, k: ReaderKind, i: nat)
    requires GetReader(uri) == Ok(k)
    requires i < |Order| && Order[i] == k
    ensures forall j :: 0 <= j < i ==> !Supports(Order[j], uri)
  {
    var f := FirstSupporting(Order, uri);
    assert f.Some? && Order[f.value] == k;
    assert f.value == i by {
      assert forall a, b :: 0 <= a < b < |Order| ==> Order[a] != Order[b];
    }
  }

  /** Exactly the URIs with `://` but none of the six known prefixes have no reader. */
  lemma UnsupportedExactly(uri: string)
    ensures GetReader(uri).Err? <==>
      Contains(uri, "://") &&
      !StartsWith(uri, "s3://") && !StartsWith(uri, "git://") && !StartsWith(uri, "smb://") &&
      !StartsWith(uri, "\\\\") && !StartsWith(uri, "http://") && !StartsWith(uri, "https://") &&
      !StartsWith(uri, "file://")
  {
    assert Supports(Local, uri) <==> StartsWith(uri, "file://") || !Contains(uri, "://");
  }

  /** A UNC path goes to the SMB reader although the local reader would accept it too. */
  lemma UncGoesToSmb(uri: string)
    requires StartsWith(uri, "\\\\") && !Contains(uri, "://")
    ensures GetReader(uri) == Ok(Smb)
    ensures Supports(Local, uri)
  {
    assert !StartsWith(uri, "s3://") by { assert uri[0] == '\\'; }
    assert !StartsWith(uri, "git://") by { assert uri[0] == '\\'; }
  }

  /** A bare relative or absolute path without a scheme goes to the local reader. */
  lemma BarePathGoesToLocal(uri: string)
    requires !Contains(uri, "://") && !StartsWith(uri, "\\\\")
    ensures GetReader(uri) == Ok(Local)
  {
    assert !StartsWith(uri, "s3://") by {
      if StartsWith(uri, "s3://") { assert uri[2..5] == "://"; ContainsAt(uri, "://", 2); }
    }
    assert !StartsWith(uri, "git://") by {
      if StartsWith(uri, "git://") { assert uri[3..6] == "://"; ContainsAt(uri, "://", 3); }
    }
    assert !StartsWith(uri, "smb://") by {
      if StartsWith(uri, "smb://") { assert uri[3..6] == "://"; ContainsAt(uri, "://", 3); }
    }
    assert !StartsWith(uri, "http://") by {
      if StartsWith(uri, "http://") { assert uri[4..7] == "://"; ContainsAt(uri, "://", 4); }
    }
    assert !StartsWith(uri, "https://") by {
      if StartsWith(uri, "https://") { assert uri[5..8] == "://"; ContainsAt(uri, "://", 5); }
    }
  }

  /** An unknown scheme such as `ftp://` has no reader. */
  lemma FtpUnsupported(rest: string)
    ensures GetReader("ftp://" + rest) == Err(Raise(UnsupportedFormatError, "No reader for protocol: " + ("ftp://" + rest)))
  {
    var uri := "ftp://" + rest;
    assert OccursAt(uri, "://", 3);
    ContainsAt(uri, "://", 3);
    assert uri[0] == 'f';
    UnsupportedExactly(uri);
  }

  /** Reading with one reader: the local one needs no services or credentials. */
  function ReadWith(k: ReaderKind, svc: Services, fs: Fs, uri: string, credentials: Credentials): (r: Result<Staged>)
    ensures r.Ok? ==> r.value.path in r.value.fs && IsNormal(r.value.path)
    ensures r.Err? && k != Local ==> r.error.Mcp? && r.error.kind == SourceConnectionError
    ensures r.Err? && k == Local ==> r.error == Raise(NotFoundError, "File not found: " + uri)
  {
    match k
    case S3 => S3Reader.ReadFile(svc, fs, uri, credentials)
    case Git => GitReader.ReadFile(svc, fs, uri, credentials)
    case Smb => SmbReader.ReadFile(fs, uri, credentials)
    case Http => HttpReader.ReadFile(svc, fs, uri, credentials)
    case Local => LocalReader.ReadFile(fs, uri)
  }

  function ListWith(k: ReaderKind, svc: Services, fs: Fs, uri: string, credentials: Credentials): (r: Result<seq<DirEntry>>)
    ensures k == Git || k == Smb || k == Http ==> r == Ok([])
    ensures r.Err? && k == S3 ==> r.error.Mcp? && r.error.kind == SourceConnectionError
  {
    match k
    case S3 => S3Reader.ListFiles(svc, uri, credentials)
    case Git => GitReader.ListFiles(uri, credentials)
    case Smb => SmbReader.ListFiles(uri, credentials)
    case Http => HttpReader.ListFiles(uri, credentials)
    case Local => LocalReader.ListFiles(fs, uri)
  }

  /**
   * `read_document`: the chosen reader's local copy, which exists in the file
   * system it returns; failures are the reader's own, or `UnsupportedFormatError`.
   */
  function ReadDocument(svc: Services, fs: Fs, uri: string, credentials: Credentials): (r: Result<Staged>)
    ensures r.Ok? ==> r.value.path in r.value.fs && IsNormal(r.value.path)
    ensures r.Ok? ==> GetReader(uri).Ok?
    ensures r.Err? ==> r.error.Mcp?
    ensures r.Err? ==> r.error.kind in {UnsupportedFormatError, SourceConnectionError, NotFoundError}
    ensures r.Err? && r.error.kind == UnsupportedFormatError ==> GetReader(uri).Err?
    ensures GetReader(uri).Ok? ==> r == ReadWith(GetReader(uri).value, svc, fs, uri, credentials)
  {
    var k :- GetReader(uri);
    ReadWith(k, svc, fs, uri, credentials)
  }

  /** `list_documents`: the chosen reader's listing. */
  function ListDocuments(svc: Services, fs: Fs, uri: string, credentials: Credentials): (r: Result<seq<DirEntry>>)
    ensures GetReader(uri).Err? ==> r == Err(GetReader(uri).error)
    ensures GetReader(uri).Ok? && GetReader(uri).value in {Git, Smb, Http} ==> r == Ok([])
    ensures GetReader(uri).Ok? ==> r == ListWith(GetReader(uri).value, svc, fs, uri, credentials)
  {
    var k :- GetReader(uri);
    ListWith(k, svc, fs, uri, credentials)
  }

  /** The local reader depends on neither the remote services nor the credentials. */
  /** An existing printed local path is read in place, whatever the credentials. */
  lemma LocalPathInPlace(svc: Services, fs: Fs, p: string, credentials: Credentials)
    requires IsNormal(p) && !Contains(p, "://") && !StartsWith(p, "\\\\") && p in fs
    ensures ReadDocument(svc, fs, p, credentials) == Ok(Staged(p, fs))
  {
    BarePathGoesToLocal(p);
    LocalReader.ReadInPlace(fs, p);
  }

    lemma LocalIgnoresCredentials(svc1: Services, svc2: Services, fs: Fs, uri: string, c1: Credentials, c2: Credentials)
    ensures ReadWith(Local, svc1, fs, uri, c1) == ReadWith(Local, svc2, fs, uri, c2)
    ensures ListWith(Local, svc1, fs, uri, c1) == ListWith(Local, svc2, fs, uri, c2)
  {
  }
}
