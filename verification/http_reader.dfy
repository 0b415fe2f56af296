/**
 * The HTTP reader: the URL is fetched (following redirects) with an optional
 * bearer token, and the body is staged under the name the server suggests in
 * `Content-Disposition`, else the URL's last path segment, else
 * `downloaded_file`. Every failure becomes `SourceConnectionError("HTTP error: ...")`.
 */
module HttpReader {
  import opened Common
  import opened Errors
  import opened Text
  import opened Paths
  import opened Urls
  import opened FileSystem
  import opened Remote

  predicate Supports(uri: string) {
    StartsWith(uri, "http://") || StartsWith(uri, "https://")
  }

  /** The request headers: a bearer `Authorization` from `api_key`, else from `token`, else none. */
  function AuthHeaders(credentials: Credentials): (h: map<string, string>)
    ensures h.Keys <= {"Authorization"}
    ensures "api_key" in credentials ==> h == map["Authorization" := "Bearer " + credentials["api_key"]]
    ensures "api_key" !in credentials && "token" in credentials ==> h == map["Authorization" := "Bearer " + credentials["token"]]
    ensures "api_key" !in credentials && "token" !in credentials ==> h == map[]
  {
    if |credentials| == 0 then map[]
    else if "api_key" in credentials then map["Authorization" := "Bearer " + credentials["api_key"]]
    else if "token" in credentials then map["Authorization" := "Bearer " + credentials["token"]]
    else map[]
  }

  /** `raise_for_status` passes exactly the 2xx statuses. */
  predicate IsSuccess(status: int) {
    200 <= status < 300
  }

  /** `s.split(sep)[1]`: the text between the first and the second occurrence of `sep`. */
  function SecondField(s: string, sep: string): (r: string)
    requires |sep| > 0 && Contains(s, sep)
    ensures !Contains(r, sep)
  {
    var i := Find(s, sep).value;
    var rest := s[i + |sep|..];
    match Find(rest, sep)
    case None => rest
    case Some(j) =>
      assert !Contains(rest[..j], sep) by {
        if Contains(rest[..j], sep) {
          var k := Find(rest[..j], sep).value;
          OccursInPrefix(rest, sep, j, k);
        }
      }
      rest[..j]
  }

  /** The name used when neither the response nor the URL suggests one. */
  const DefaultName: string := "downloaded_file"

  lemma DefaultNameIsSegment()
    ensures IsSegment(DefaultName)
  {
    assert forall k :: 0 <= k < |DefaultName| ==> DefaultName[k] != '/';
  }

  /** The staged file name: quoted `filename=` value, else the URL's last path segment, else `downloaded_file`. */
  function FileName(uri: string, headers: map<string, string>): (r: Result<string>)
    ensures r.Ok? && !Contains(Lookup(headers, "content-disposition").GetOr(""), "filename=") ==> IsSegment(r.value)
    ensures !Contains(Lookup(headers, "content-disposition").GetOr(""), "filename=") ==>
      (r.Ok? <==> UrlParse(uri).Ok?) &&
      (r.Ok? ==> var name := Name(UrlParse(uri).value.path);
         (name != "" ==> r.value == name) && (name == "" ==> r.value == DefaultName))
  {
    var disposition := Lookup(headers, "content-disposition").GetOr("");
    if Contains(disposition, "filename=") then Ok(Strip(SecondField(disposition, "filename="), '"'))
    else
      DefaultNameIsSegment();
      var u :- UrlParse(uri);
      var name := Name(u.path);
      Ok(if name == "" then DefaultName else name)
  }

  /** With no `Content-Disposition` header, the name comes from the URL. */
  lemma NoDispositionUsesUrl(uri: string, headers: map<string, string>, u: Url)
    requires "content-disposition" !in headers
    requires UrlParse(uri) == Ok(u)
    ensures FileName(uri, headers) == Ok(if Name(u.path) == "" then DefaultName else Name(u.path))
  {
    assert Lookup(headers, "content-disposition").GetOr("") == "";
    assert !Contains("", "filename=");
  }

  lemma HttpsIsScheme()
    ensures IsScheme("https") && Lower("https") == "https"
  {
    assert forall k :: 0 <= k < 5 ==> IsSchemeChar("https"[k]);
  }

  /** Without a suggested name, `https://host/dir/name` stages the body as `name`. */
  lemma UrlNameRoundTrip(host: string, dir: string, name: string, headers: map<string, string>)
    requires IsPlainHost(host)
    requires IsSegment(dir) && IsSegment(name)
    requires '?' !in dir + name && '#' !in dir + name && ';' !in dir + name
    requires "content-disposition" !in headers
    ensures FileName("https://" + host + "/" + dir + "/" + name, headers) == Ok(name)
  {
    var path := "/" + dir + "/" + name;
    assert '?' !in path && '#' !in path && ';' !in path by {
      assert forall c :: c in path ==> c == '/' || c in dir + name;
    }
    HttpsIsScheme();
    assert "https://" + host + "/" + dir + "/" + name == "https" + "://" + host + path;
    ParseComposed("https", host, path);
    NameOfTwoSegments(dir, name);
    NoDispositionUsesUrl("https://" + host + "/" + dir + "/" + name, headers, Url("https", host, path, "", "", ""));
  }

  /** Without a suggested name, a URL whose path has no last segment stages the body as `downloaded_file`. */
  lemma RootUrlDefaultName(host: string, headers: map<string, string>)
    requires IsPlainHost(host)
    requires "content-disposition" !in headers
    ensures FileName("https://" + host + "/", headers) == Ok(DefaultName)
  {
    HttpsIsScheme();
    assert "https://" + host + "/" == "https" + "://" + host + "/";
    ParseComposed("https", host, "/");
    RootHasNoName();
    NoDispositionUsesUrl("https://" + host + "/", headers, Url("https", host, "/", "", "", ""));
  }

  /** The unwrapped steps of `read_file`. */
  function Fetch(svc: Services, fs: Fs, uri: string, credentials: Credentials): (r: Result<Staged>)
    ensures r.Ok? ==> svc.httpGet(uri, AuthHeaders(credentials)).Ok?
    ensures r.Ok? ==> var response := svc.httpGet(uri, AuthHeaders(credentials)).value;
      && IsSuccess(response.status)
      && FileName(uri, response.headers).Ok?
      && r.value.path == JoinPath(StagingDir, FileName(uri, response.headers).value)
      && r.value.path in r.value.fs && r.value.fs[r.value.path] == File(response.body)
    ensures svc.httpGet(uri, AuthHeaders(credentials)).Ok? && !IsSuccess(svc.httpGet(uri, AuthHeaders(credentials)).value.status) ==>
      r == Err(svc.httpStatusError(svc.httpGet(uri, AuthHeaders(credentials)).value))
    ensures svc.httpGet(uri, AuthHeaders(credentials)).Err? ==> r == Err(svc.httpGet(uri, AuthHeaders(credentials)).error)
    ensures var got := svc.httpGet(uri, AuthHeaders(credentials));
      got.Ok? && IsSuccess(got.value.status) && FileName(uri, got.value.headers).Err? ==>
      r == Err(FileName(uri, got.value.headers).error)
    ensures var got := svc.httpGet(uri, AuthHeaders(credentials));
      got.Ok? && IsSuccess(got.value.status) && FileName(uri, got.value.headers).Ok? ==>
      var target := JoinPath(StagingDir, FileName(uri, got.value.headers).value);
      && (WriteBytes(fs, target, got.value.body).Ok? ==> r == Ok(Staged(target, WriteBytes(fs, target, got.value.body).value)))
      && (WriteBytes(fs, target, got.value.body).Err? ==> r == Err(WriteBytes(fs, target, got.value.body).error))
  {
    var response :- svc.httpGet(uri, AuthHeaders(credentials));
    if !IsSuccess(response.status) then Err(svc.httpStatusError(response))
    else
      var name :- FileName(uri, response.headers);
      var target := JoinPath(StagingDir, name);
      var fs' :- WriteBytes(fs, target, response.body);
      Ok(Staged(target, fs'))
  }

  /**
   * `read_file`: a 2xx response's body staged under its file name; transport
   * errors, non-2xx statuses and write failures are HTTP connection errors.
   */
  function ReadFile(svc: Services, fs: Fs, uri: string, credentials: Credentials): (r: Result<Staged>)
    ensures r.Ok? ==> var response := svc.httpGet(uri, AuthHeaders(credentials));
      response.Ok? && IsSuccess(response.value.status) &&
      r.value.path in r.value.fs && r.value.fs[r.value.path] == File(response.value.body)
    ensures r.Ok? ==> IsNormal(r.value.path)
    ensures r.Err? ==> r.error.Mcp? && r.error.kind == SourceConnectionError && StartsWith(r.error.Str(), "HTTP error: ")
    ensures Fetch(svc, fs, uri, credentials).Ok? ==> r == Fetch(svc, fs, uri, credentials)
    ensures Fetch(svc, fs, uri, credentials).Err? ==>
      r == Err(Raise(SourceConnectionError, "HTTP error: " + Fetch(svc, fs, uri, credentials).error.Str()))
  {
    WrapAsKind(SourceConnectionError, "HTTP error: ", Fetch(svc, fs, uri, credentials));
    WrapAs(SourceConnectionError, "HTTP error: ", Fetch(svc, fs, uri, credentials))
  }

  /** A non-2xx response is never staged: the status error is reported as an HTTP connection error. */
  lemma ErrorStatusNotStaged(svc: Services, fs: Fs, uri: string, credentials: Credentials)
    requires svc.httpGet(uri, AuthHeaders(credentials)).Ok?
    requires !IsSuccess(svc.httpGet(uri, AuthHeaders(credentials)).value.status)
    ensures ReadFile(svc, fs, uri, credentials) ==
      Err(Raise(SourceConnectionError, "HTTP error: " + svc.httpStatusError(svc.httpGet(uri, AuthHeaders(credentials)).value).Str()))
  {
  }

  /** An API key wins over a token when both are given. */
  lemma ApiKeyBeatsToken(credentials: Credentials)
    requires "api_key" in credentials && "token" in credentials
    ensures AuthHeaders(credentials)["Authorization"] == "Bearer " + credentials["api_key"]
  {
  }

  /** A quoted `filename="name"` disposition stages the body under exactly `name`. */
  lemma QuotedNameRoundTrip(uri: string, headers: map<string, string>, name: string)
    requires |name| > 0 && '"' !in name && !Contains(name, "filename=")
    requires "content-disposition" in headers && headers["content-disposition"] == "filename=" + ("\"" + name + "\"")
    ensures FileName(uri, headers) == Ok(name)
  {
    var q := "\"" + name + "\"";
    var d := headers["content-disposition"];
    assert OccursAt(d, "filename=", 0);
    ContainsAt(d, "filename=", 0);
    assert Find(d, "filename=") == Some(0);
    assert d[9..] == q;
    if Contains(q, "filename=") {
      ContainsWrapped(name, "filename=", '"');
    }
    assert SecondField(d, "filename=") == q;
    assert name[0] in name && name[|name| - 1] in name;
    StripWrapped(name, '"');
  }

  /** A suggested name that starts with `/` is not kept inside the staging directory: it replaces it. */
  lemma AbsoluteNameLeavesStagingDir(name: string)
    requires StartsWith(name, "/")
    ensures JoinPath(StagingDir, name) == Normalize(name)
  {
  }

  /** `list_files` is not implemented for HTTP endpoints: always empty. */
  function ListFiles(uri: string, credentials: Credentials): (r: Result<seq<DirEntry>>)
    ensures r == Ok([])
  {
    Ok([])
  }
}
