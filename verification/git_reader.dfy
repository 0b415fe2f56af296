/**
 * The Git reader: `git://host/org/repo[/branch[/path...]]` names a file in a
 * shallow clone kept in the staging directory (pulled again when the clone
 * already exists). Every failure, including a missing file, becomes
 * `SourceConnectionError("Git error: ...")`.
 */
module GitReader {
  import opened Common
  import opened Errors
  import opened Text
  import opened Paths
  import opened Urls
  import opened FileSystem
  import opened Remote

  predicate Supports(uri: string) {
    StartsWith(uri, "git://")
  }

  /** What the URI names: host, organisation, repository, branch and file path inside the clone. */
  datatype Target = Target(host: Option<string>, org: string, repo: string, branch: string, filePath: string)

  /** The URL path without outer slashes, split on every `/`. */
  function PathParts(path: string): (r: seq<string>)
    ensures |r| >= 1
    ensures forall i :: 0 <= i < |r| ==> '/' !in r[i]
  {
    SplitOn(Strip(path, '/'), '/')
  }

  /**
   * The target of a URI: the first two parts are organisation and repository
   * (fewer parts fail with Python's `IndexError`), the third the branch
   * (default `main`), the rest the file path.
   */
  function Locate(uri: string): (r: Result<Target>)
    ensures r.Ok? ==> UrlParse(uri).Ok? && |PathParts(UrlParse(uri).value.path)| >= 2
    ensures UrlParse(uri).Ok? && |PathParts(UrlParse(uri).value.path)| < 2 ==>
      r == Err(Builtin("IndexError", "list index out of range"))
    ensures r.Ok? ==> var parts := PathParts(UrlParse(uri).value.path);
      && r.value.org == parts[0] && r.value.repo == parts[1]
      && (|parts| > 2 ==> r.value.branch == parts[2])
      && (|parts| <= 2 ==> r.value.branch == "main")
      && (|parts| > 3 ==> r.value.filePath == Join(parts[3..], "/"))
      && (|parts| <= 3 ==> r.value.filePath == "")
  {
    var u :- UrlParse(uri);
    var parts := PathParts(u.path);
    if |parts| < 2 then Err(Builtin("IndexError", "list index out of range"))
    else
      Ok(Target(Hostname(u.netloc), parts[0], parts[1],
                if |parts| > 2 then parts[2] else "main",
                if |parts| > 3 then Join(parts[3..], "/") else ""))
  }

  /** Stripping `/` from `/` + `s` gives `s` when `s` neither starts nor ends with `/`. */
  lemma StripLeadingSlash(s: string)
    requires |s| > 0 && s[0] != '/' && s[|s| - 1] != '/'
    ensures Strip("/" + s, '/') == s
  {
    assert ("/" + s)[1..] == s;
    assert LStrip("/" + s, '/') == s;
  }

  /** `org/repo/branch/file` splits into the three names, then the pieces of the file path. */
  lemma SplitComposed(org: string, repo: string, branch: string, file: string)
    requires '/' !in org && '/' !in repo && '/' !in branch
    ensures SplitOn(org + "/" + (repo + "/" + (branch + "/" + file)), '/') == [org, repo, branch] + SplitOn(file, '/')
  {
    var tail := branch + "/" + file;
    var mid := repo + "/" + tail;
    SplitAppend(branch, file, '/');
    SplitNoSeparator(branch, '/');
    SplitAppend(repo, tail, '/');
    SplitNoSeparator(repo, '/');
    SplitAppend(org, mid, '/');
    SplitNoSeparator(org, '/');
  }

  /** The parts of `/org/repo/branch/file`: the three names, then the pieces of the file path. */
  lemma PathPartsComposed(org: string, repo: string, branch: string, file: string)
    requires |org| > 0 && '/' !in org && '/' !in repo && '/' !in branch
    requires |file| > 0 && file[|file| - 1] != '/'
    ensures PathParts("/" + (org + "/" + (repo + "/" + (branch + "/" + file)))) == [org, repo, branch] + SplitOn(file, '/')
  {
    var inner := org + "/" + (repo + "/" + (branch + "/" + file));
    assert inner[0] == org[0] && inner[|inner| - 1] == file[|file| - 1];
    StripLeadingSlash(inner);
    SplitComposed(org, repo, branch, file);
  }

  /** `git://host/org/repo/branch/file` locates exactly those five parts; inner slashes of the file path are kept. */
  lemma LocateComposed(host: string, org: string, repo: string, branch: string, file: string)
    requires IsPlainHost(host)
    requires |org| > 0 && '/' !in org && '/' !in repo && '/' !in branch
    requires |file| > 0 && file[|file| - 1] != '/'
    requires forall ch :: ch in {'?', '#', ';'} ==> ch !in org + repo + branch + file
    ensures Locate("git://" + host + "/" + org + "/" + repo + "/" + branch + "/" + file) ==
      Ok(Target(Some(host), org, repo, branch, file))
  {
    var path := "/" + (org + "/" + (repo + "/" + (branch + "/" + file)));
    assert "git://" + host + "/" + org + "/" + repo + "/" + branch + "/" + file == "git" + "://" + host + path;
    assert IsScheme("git") by {
      assert forall k :: 0 <= k < 3 ==> IsSchemeChar("git"[k]);
    }
    assert Lower("git") == "git";
    assert '?' !in path && '#' !in path && ';' !in path by {
      assert forall k :: 0 <= k < |path| ==> path[k] == '/' || path[k] in org + repo + branch + file;
    }
    ParseComposed("git", host, path);
    PathPartsComposed(org, repo, branch, file);
    var parts := PathParts(path);
    assert parts[3..] == SplitOn(file, '/');
    JoinSplit(file, '/');
  }

  /** The repository to clone: always `https`, on the same host. */
  function RepoUrl(t: Target): string {
    "https://" + HostText(t.host) + "/" + t.org + "/" + t.repo
  }

  /** The clone directory, one per host, organisation and repository. */
  function RepoDir(t: Target): (p: string)
    ensures IsNormal(p)
  {
    JoinPath(StagingDir, "repo_" + HostText(t.host) + "_" + t.org + "_" + t.repo)
  }

  /** A token is embedded as user info only when credentials are given and the token is non-empty. */
  function CloneUrl(url: string, credentials: Credentials): string {
    if |credentials| > 0 && "token" in credentials && credentials["token"] != "" then
      ReplaceAll(url, "https://", "https://" + credentials["token"] + "@")
    else url
  }

  /** The clone after `read_file` refreshes it: pulled when its directory exists, cloned otherwise. */
  function Sync(svc: Services, fs: Fs, t: Target, credentials: Credentials): (r: Result<Fs>)
    ensures RepoDir(t) in fs ==> r == svc.gitPull(RepoDir(t), fs)
    ensures RepoDir(t) !in fs ==> r == svc.gitClone(CloneUrl(RepoUrl(t), credentials), RepoDir(t), t.branch, fs)
  {
    var dir := RepoDir(t);
    if dir in fs then svc.gitPull(dir, fs)
    else svc.gitClone(CloneUrl(RepoUrl(t), credentials), dir, t.branch, fs)
  }

  /** The file inside the refreshed clone. */
  function Find(svc: Services, fs: Fs, t: Target, credentials: Credentials): (r: Result<Staged>)
    ensures r.Ok? ==> r.value.path == JoinPath(RepoDir(t), t.filePath) && r.value.path in r.value.fs
    ensures r.Ok? <==> Sync(svc, fs, t, credentials).Ok? && JoinPath(RepoDir(t), t.filePath) in Sync(svc, fs, t, credentials).value
    ensures r.Ok? ==> r.value.fs == Sync(svc, fs, t, credentials).value
    ensures Sync(svc, fs, t, credentials).Err? ==> r == Err(Sync(svc, fs, t, credentials).error)
  {
    var fs' :- Sync(svc, fs, t, credentials);
    var target := JoinPath(RepoDir(t), t.filePath);
    if target in fs' then Ok(Staged(target, fs'))
    else Err(Raise(NotFoundError, "File not found in repository: " + t.filePath))
  }

  /** The unwrapped steps of `read_file`. */
  function Fetch(svc: Services, fs: Fs, uri: string, credentials: Credentials): (r: Result<Staged>)
    ensures r.Ok? ==> Locate(uri).Ok? && r.value.path == JoinPath(RepoDir(Locate(uri).value), Locate(uri).value.filePath)
    ensures r.Ok? ==> r.value.path in r.value.fs
    ensures r.Ok? ==> Sync(svc, fs, Locate(uri).value, credentials).Ok? && r.value.fs == Sync(svc, fs, Locate(uri).value, credentials).value
    ensures Locate(uri).Err? ==> r == Err(Locate(uri).error)
    ensures Locate(uri).Ok? ==> (r.Ok? <==> Find(svc, fs, Locate(uri).value, credentials).Ok?)
    ensures Locate(uri).Ok? && Find(svc, fs, Locate(uri).value, credentials).Err? ==>
      r == Err(Find(svc, fs, Locate(uri).value, credentials).error)
  {
    var t :- Locate(uri);
    Find(svc, fs, t, credentials)
  }

  /**
   * `read_file`: the file inside the (possibly refreshed) clone; a file the
   * clone lacks is reported as a connection error wrapping the not-found message.
   */
  function ReadFile(svc: Services, fs: Fs, uri: string, credentials: Credentials): (r: Result<Staged>)
    ensures r.Ok? ==> r.value.path in r.value.fs
    ensures r.Ok? ==> Locate(uri).Ok? && r.value.path == JoinPath(RepoDir(Locate(uri).value), Locate(uri).value.filePath)
    ensures r.Ok? ==> IsNormal(r.value.path)
    ensures r.Ok? ==> Sync(svc, fs, Locate(uri).value, credentials).Ok? && r.value.fs == Sync(svc, fs, Locate(uri).value, credentials).value
    ensures r.Err? ==> r.error.Mcp? && r.error.kind == SourceConnectionError && StartsWith(r.error.Str(), "Git error: ")
    ensures Fetch(svc, fs, uri, credentials).Ok? ==> r == Fetch(svc, fs, uri, credentials)
    ensures Fetch(svc, fs, uri, credentials).Err? ==>
      r == Err(Raise(SourceConnectionError, "Git error: " + Fetch(svc, fs, uri, credentials).error.Str()))
  {
    WrapAsKind(SourceConnectionError, "Git error: ", Fetch(svc, fs, uri, credentials));
    WrapAs(SourceConnectionError, "Git error: ", Fetch(svc, fs, uri, credentials))
  }

  /** A file missing from the clone is a connection error whose message carries the not-found text. */
  lemma MissingFileIsConnectionError(svc: Services, fs: Fs, uri: string, credentials: Credentials)
    requires Locate(uri).Ok?
    requires Sync(svc, fs, Locate(uri).value, credentials).Ok?
    requires JoinPath(RepoDir(Locate(uri).value), Locate(uri).value.filePath) !in Sync(svc, fs, Locate(uri).value, credentials).value
    ensures ReadFile(svc, fs, uri, credentials) ==
      Err(Raise(SourceConnectionError, "Git error: " + ("File not found in repository: " + Locate(uri).value.filePath)))
  {
    var t := Locate(uri).value;
    assert Find(svc, fs, t, credentials) == Err(Raise(NotFoundError, "File not found in repository: " + t.filePath));
    assert Fetch(svc, fs, uri, credentials) == Find(svc, fs, t, credentials);
  }

  /** A file present in the refreshed clone is read from the clone, at its path inside it. */
  lemma ExistingFileIsRead(svc: Services, fs: Fs, uri: string, credentials: Credentials)
    requires Locate(uri).Ok?
    requires var t := Locate(uri).value;
      Sync(svc, fs, t, credentials).Ok? && JoinPath(RepoDir(t), t.filePath) in Sync(svc, fs, t, credentials).value
    ensures var t := Locate(uri).value;
      ReadFile(svc, fs, uri, credentials) == Ok(Staged(JoinPath(RepoDir(t), t.filePath), Sync(svc, fs, t, credentials).value))
  {
  }

  /** An existing clone is pulled, never cloned again, so credentials play no part. */
  lemma ExistingCloneIgnoresCredentials(svc: Services, fs: Fs, uri: string, c1: Credentials, c2: Credentials)
    requires Locate(uri).Ok? && RepoDir(Locate(uri).value) in fs
    ensures ReadFile(svc, fs, uri, c1) == ReadFile(svc, fs, uri, c2)
    ensures ReadFile(svc, fs, uri, c1).Ok? ==>
      svc.gitPull(RepoDir(Locate(uri).value), fs).Ok? &&
      ReadFile(svc, fs, uri, c1).value.fs == svc.gitPull(RepoDir(Locate(uri).value), fs).value
  {
    var t := Locate(uri).value;
    assert Sync(svc, fs, t, c1) == Sync(svc, fs, t, c2);
    assert Find(svc, fs, t, c1) == Find(svc, fs, t, c2);
    assert Fetch(svc, fs, uri, c1) == Find(svc, fs, t, c1);
    assert Fetch(svc, fs, uri, c2) == Find(svc, fs, t, c2);
  }

  /**
   * Without a clone directory the repository is cloned, from the `https` URL
   * carrying the token, into the clone directory, at the URL's branch.
   */
  lemma MissingCloneIsCloned(svc: Services, fs: Fs, uri: string, credentials: Credentials)
    requires Locate(uri).Ok? && RepoDir(Locate(uri).value) !in fs
    requires ReadFile(svc, fs, uri, credentials).Ok?
    ensures var t := Locate(uri).value;
      var cloned := svc.gitClone(CloneUrl(RepoUrl(t), credentials), RepoDir(t), t.branch, fs);
      cloned.Ok? && ReadFile(svc, fs, uri, credentials).value.fs == cloned.value &&
      ReadFile(svc, fs, uri, credentials).value.path in cloned.value
  {
  }

  /** Without a token, or with an empty one, the clone URL is the plain repository URL. */
  lemma NoTokenNoUserInfo(url: string, credentials: Credentials)
    requires "token" !in credentials || credentials["token"] == ""
    ensures CloneUrl(url, credentials) == url
  {
  }

  /** With a token, a repository URL gains it as user info right after the scheme. */
  lemma TokenBecomesUserInfo(t: Target, credentials: Credentials)
    requires "token" in credentials && credentials["token"] != ""
    ensures StartsWith(CloneUrl(RepoUrl(t), credentials), "https://" + credentials["token"] + "@")
    ensures var rest := HostText(t.host) + "/" + t.org + "/" + t.repo;
      !Contains(rest, "https://") ==> CloneUrl(RepoUrl(t), credentials) == "https://" + credentials["token"] + "@" + rest
  {
    var url := RepoUrl(t);
    var rest := HostText(t.host) + "/" + t.org + "/" + t.repo;
    assert url == "https://" + rest;
    assert StartsWith(url, "https://") by {
      assert url[..8] == "https://";
    }
    assert url[8..] == rest;
    assert |credentials| > 0 by {
      assert "token" in credentials.Keys;
    }
  }

  /** `list_files` is not implemented for repositories: always empty. */
  function ListFiles(uri: string, credentials: Credentials): (r: Result<seq<DirEntry>>)
    ensures r == Ok([])
  {
    Ok([])
  }
}
