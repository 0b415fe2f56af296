/**
 * The S3 reader: `s3://bucket/key` is downloaded into the staging directory
 * under the key's last segment; listing returns the objects under a prefix.
 * Every failure becomes `SourceConnectionError("S3 error: ...")`.
 */
module S3Reader {
  import opened Common
  import opened Errors
  import opened Text
  import opened Paths
  import opened Urls
  import opened FileSystem
  import opened Remote

  predicate Supports(uri: string) {
    StartsWith(uri, "s3://")
  }

  /** The bucket (the URL's host name) and the key (its path without leading slashes). */
  datatype Location = Location(bucket: Option<string>, key: string)

  function Locate(uri: string): (r: Result<Location>)
    ensures r.Ok? ==> !StartsWith(r.value.key, "/")
  {
    match UrlParse(uri)
    case Err(e) => Err(e)
    case Ok(u) =>
      LStripNoPrefix(u.path, '/');
      Ok(Location(Hostname(u.netloc), LStrip(u.path, '/')))
  }

  /** The client arguments: both keys as given, the region defaulting to `us-east-1`. */
  function ClientFor(credentials: Credentials): (c: S3Client)
    ensures c.accessKeyId == Lookup(credentials, "access_key_id")
    ensures c.secretAccessKey == Lookup(credentials, "secret_access_key")
    ensures "region" in credentials ==> c.region == credentials["region"]
    ensures "region" !in credentials ==> c.region == "us-east-1"
  {
    S3Client(Lookup(credentials, "access_key_id"), Lookup(credentials, "secret_access_key"),
             Lookup(credentials, "region").GetOr("us-east-1"))
  }

  /** The local copy: the key's last segment inside the staging directory. */
  function StagingPath(key: string): (p: string)
    ensures IsNormal(p)
  {
    JoinPath(StagingDir, Name(key))
  }

  /** The unwrapped steps of `read_file`. */
  function Fetch(svc: Services, fs: Fs, uri: string, credentials: Credentials): (r: Result<Staged>)
    ensures r.Ok? ==> Locate(uri).Ok? && r.value.path == StagingPath(Locate(uri).value.key)
    ensures r.Ok? ==> r.value.path in r.value.fs && r.value.fs[r.value.path].File?
  {
    var loc :- Locate(uri);
    var data :- svc.s3Download(ClientFor(credentials), loc.bucket, loc.key);
    var target := StagingPath(loc.key);
    var fs' :- WriteBytes(fs, target, data);
    Ok(Staged(target, fs'))
  }

  /**
   * `read_file`: the downloaded object staged under its key's name; any
   * failure, including a malformed URL, is an S3 connection error.
   */
  function ReadFile(svc: Services, fs: Fs, uri: string, credentials: Credentials): (r: Result<Staged>)
    ensures r.Ok? ==> r.value.path in r.value.fs && r.value.fs[r.value.path].File?
    ensures r.Ok? ==> IsNormal(r.value.path)
    ensures r.Ok? ==> Parent(r.value.path) == StagingDir || r.value.path == StagingDir
    ensures r.Err? ==> r.error.Mcp? && r.error.kind == SourceConnectionError && StartsWith(r.error.Str(), "S3 error: ")
  {
    var r := WrapAs(SourceConnectionError, "S3 error: ", Fetch(svc, fs, uri, credentials));
    WrapAsKind(SourceConnectionError, "S3 error: ", Fetch(svc, fs, uri, credentials));
    if r.Ok? then StagedInStagingDir(Locate(uri).value.key) ; r else r
  }

  /** Keys with the same last segment are staged at the same path, so the later download overwrites the earlier. */
  lemma SameNameSameCopy(svc: Services, fs1: Fs, fs2: Fs, uri1: string, uri2: string, c1: Credentials, c2: Credentials)
    requires ReadFile(svc, fs1, uri1, c1).Ok? && ReadFile(svc, fs2, uri2, c2).Ok?
    requires Name(Locate(uri1).value.key) == Name(Locate(uri2).value.key)
    ensures ReadFile(svc, fs1, uri1, c1).value.path == ReadFile(svc, fs2, uri2, c2).value.path
  {
    WrapAsKind(SourceConnectionError, "S3 error: ", Fetch(svc, fs1, uri1, c1));
    WrapAsKind(SourceConnectionError, "S3 error: ", Fetch(svc, fs2, uri2, c2));
  }

  /** A staged copy sits directly in the staging directory (or is the directory itself, for an empty key name). */
  lemma StagedInStagingDir(key: string)
    ensures Parent(StagingPath(key)) == StagingDir || StagingPath(key) == StagingDir
  {
    StagingDirIsNormal();
    if Name(key) == "" {
      JoinEmpty(StagingDir);
    } else {
      JoinSegment(StagingDir, Name(key));
    }
  }

  /** `s3://bucket/key` locates that bucket and key, slashes inside the key included. */
  lemma LocateComposed(bucket: string, key: string)
    requires IsPlainHost(bucket)
    requires '?' !in key && '#' !in key && ';' !in key && (key == "" || key[0] != '/')
    ensures Locate("s3://" + bucket + "/" + key) == Ok(Location(Some(bucket), key))
  {
    var uri := "s3://" + bucket + "/" + key;
    assert uri == "s3" + "://" + bucket + ("/" + key);
    assert IsScheme("s3") by {
      assert forall k :: 0 <= k < 2 ==> IsSchemeChar("s3"[k]);
    }
    assert Lower("s3") == "s3";
    ParseComposed("s3", bucket, "/" + key);
    assert LStrip("/" + key, '/') == key by {
      assert ("/" + key)[1..] == key;
    }
  }

  /**
   * When the download succeeds and the staging directory exists, the copy of
   * `s3://bucket/path/to/name` is `name` inside the staging directory and holds
   * exactly the downloaded bytes.
   */
  lemma DownloadIsStaged(svc: Services, fs: Fs, bucket: string, key: string, credentials: Credentials)
    requires StagingDir in fs && fs[StagingDir].Dir?
    requires IsPlainHost(bucket)
    requires '?' !in key && '#' !in key && ';' !in key && (key == "" || key[0] != '/')
    requires IsSegment(Name(key))
    requires svc.s3Download(ClientFor(credentials), Some(bucket), key).Ok?
    requires !(JoinPath(StagingDir, Name(key)) in fs && fs[JoinPath(StagingDir, Name(key))].Dir?)
    ensures ReadFile(svc, fs, "s3://" + bucket + "/" + key, credentials).Ok?
    ensures var r := ReadFile(svc, fs, "s3://" + bucket + "/" + key, credentials).value;
      && r.path == JoinPath(StagingDir, Name(key))
      && Name(r.path) == Name(key)
      && r.fs[r.path] == File(svc.s3Download(ClientFor(credentials), Some(bucket), key).value)
  {
    var uri := "s3://" + bucket + "/" + key;
    var data := svc.s3Download(ClientFor(credentials), Some(bucket), key).value;
    var target := JoinPath(StagingDir, Name(key));
    LocateComposed(bucket, key);
    JoinSegment(StagingDir, Name(key));
    StagingDirIsNormal();
    WriteIntoDir(fs, StagingDir, Name(key), data);
    var w := WriteBytes(fs, target, data);
    assert Fetch(svc, fs, uri, credentials) == Ok(Staged(target, w.value));
  }

  /** `list_files` entries: the key's last segment, the `s3://` URL of the object, its size. */
  function Entries(bucket: Option<string>, objects: seq<S3Object>): (r: seq<DirEntry>)
    ensures |r| == |objects|
    ensures forall i :: 0 <= i < |r| ==> r[i].name == Name(objects[i].key) && r[i].size == objects[i].size
    ensures forall i :: 0 <= i < |r| ==> r[i].path == "s3://" + HostText(bucket) + "/" + objects[i].key
  {
    seq(|objects|, i requires 0 <= i < |objects| =>
      DirEntry(Name(objects[i].key), "s3://" + HostText(bucket) + "/" + objects[i].key, objects[i].size))
  }

  /**
   * A listed object's `path` locates back to its bucket and key, so reading
   * that path stages the copy under the listed `name`.
   */
  lemma EntryLocatesObject(bucket: string, objects: seq<S3Object>, i: nat)
    requires IsPlainHost(bucket)
    requires i < |objects|
    requires var key := objects[i].key; '?' !in key && '#' !in key && ';' !in key && (key == "" || key[0] != '/')
    ensures Locate(Entries(Some(bucket), objects)[i].path) == Ok(Location(Some(bucket), objects[i].key))
    ensures StagingPath(Locate(Entries(Some(bucket), objects)[i].path).value.key) == JoinPath(StagingDir, Entries(Some(bucket), objects)[i].name)
  {
    LocateComposed(bucket, objects[i].key);
  }

  function List(svc: Services, uri: string, credentials: Credentials): Result<seq<DirEntry>> {
    var loc :- Locate(uri);
    var contents :- svc.s3List(ClientFor(credentials), loc.bucket, loc.key);
    Ok(Entries(loc.bucket, contents.GetOr([])))
  }

  /** `list_files`: one entry per listed object, none when the listing has no contents. */
  function ListFiles(svc: Services, uri: string, credentials: Credentials): (r: Result<seq<DirEntry>>)
    ensures r.Err? ==> r.error.Mcp? && r.error.kind == SourceConnectionError && StartsWith(r.error.Str(), "S3 error: ")
    ensures r.Ok? ==> Locate(uri).Ok? && svc.s3List(ClientFor(credentials), Locate(uri).value.bucket, Locate(uri).value.key).Ok?
    ensures r.Ok? ==> var loc := Locate(uri).value;
      r.value == Entries(loc.bucket, svc.s3List(ClientFor(credentials), loc.bucket, loc.key).value.GetOr([]))
  {
    WrapAsKind(SourceConnectionError, "S3 error: ", List(svc, uri, credentials));
    WrapAs(SourceConnectionError, "S3 error: ", List(svc, uri, credentials))
  }
}
