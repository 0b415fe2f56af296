/**
 * The SMB reader. The URL is decomposed into server, share and file path,
 * but the connection is opened with `uuid.uuid4()` and `uuid` is never
 * imported, so every read fails with a `NameError` before any network or file
 * access. That failure is wrapped like every other:
 * `SourceConnectionError("SMB error: name 'uuid' is not defined")`.
 */
module SmbReader {
  import opened Common
  import opened Errors
  import opened Text
  import opened Paths
  import opened Urls
  import opened FileSystem

  /** An `smb://` URL or a UNC path starting with two backslashes. */
  predicate Supports(uri: string) {
    StartsWith(uri, "smb://") || StartsWith(uri, "\\\\")
  }

  /** Server (the URL's host name), share (first path segment) and the rest of the path. */
  datatype Target = Target(server: Option<string>, share: string, filePath: string)

  /** `path.split('/', 2)`: the share is the second piece, the file path the third, both `''` when absent. */
  function Locate(uri: string): (r: Result<Target>)
    ensures r.Ok? ==> '/' !in r.value.share
    ensures r.Ok? <==> UrlParse(uri).Ok?
  {
    var u :- UrlParse(uri);
    var parts := SplitMax(u.path, '/', 2);
    Ok(Target(Hostname(u.netloc), if |parts| > 1 then parts[1] else "", if |parts| > 2 then parts[2] else ""))
  }

  /** `smb://server/share/file` locates exactly that server, share and file path. */
  lemma LocateComposed(server: string, share: string, file: string)
    requires IsPlainHost(server)
    requires '/' !in share
    requires '?' !in share + file && '#' !in share + file && ';' !in share + file
    ensures Locate("smb://" + server + "/" + share + "/" + file) == Ok(Target(Some(server), share, file))
  {
    var path := "/" + (share + "/" + file);
    assert "smb://" + server + "/" + share + "/" + file == "smb" + "://" + server + path;
    assert IsScheme("smb") by {
      assert forall k :: 0 <= k < 3 ==> IsSchemeChar("smb"[k]);
    }
    assert Lower("smb") == "smb";
    assert '?' !in path && '#' !in path && ';' !in path by {
      assert forall k :: 0 <= k < |path| ==> path[k] == '/' || path[k] in share + file;
    }
    ParseComposed("smb", server, path);
    SplitShareFile(share, file);
  }

  /** `("/" + share + "/" + file).split('/', 2)` is `['', share, file]`. */
  lemma SplitShareFile(share: string, file: string)
    requires '/' !in share
    ensures SplitMax("/" + (share + "/" + file), '/', 2) == ["", share, file]
  {
    var rest := share + "/" + file;
    var path := "/" + rest;
    assert FindChar(path, '/') == Some(0);
    assert path[1..] == rest;
    assert rest[|share|] == '/';
    assert rest[..|share|] == share;
    assert FindChar(rest, '/') == Some(|share|);
    assert rest[|share| + 1..] == file;
    assert SplitMax(rest, '/', 1) == [share] + SplitMax(file, '/', 0);
  }

  /** The exception raised at the connection step. */
  const UuidNameError: Error := Builtin("NameError", "name 'uuid' is not defined")

  /**
   * `read_file`: a malformed URL fails in `urlparse`; every other read fails at
   * the connection step. Either way nothing is staged.
   */
  function ReadFile(fs: Fs, uri: string, credentials: Credentials): (r: Result<Staged>)
    ensures r.Err?
    ensures r.error.Mcp? && r.error.kind == SourceConnectionError && StartsWith(r.error.Str(), "SMB error: ")
    ensures UrlParse(uri).Ok? ==> r.error.Str() == "SMB error: " + UuidNameError.Str()
  {
    var fetched: Result<Staged> := (var t :- Locate(uri); Err(UuidNameError));
    WrapAsKind(SourceConnectionError, "SMB error: ", fetched);
    WrapAs(SourceConnectionError, "SMB error: ", fetched)
  }

  /** No SMB read succeeds, whatever the URL, credentials or file system. */
  lemma NoReadSucceeds(fs: Fs, uri: string, credentials: Credentials)
    ensures ReadFile(fs, uri, credentials).Err?
  {
  }

  /** `list_files` is not implemented for shares: always empty. */
  function ListFiles(uri: string, credentials: Credentials): (r: Result<seq<DirEntry>>)
    ensures r == Ok([])
  {
    Ok([])
  }
}
