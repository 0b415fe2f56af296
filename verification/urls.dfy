/**
 * `urllib.parse.urlparse` as the readers use it: scheme, network location,
 * path, parameters, query and fragment, and the `hostname` derived from the
 * network location.
 */
module Urls {
  import opened Common
  import opened Errors
  import opened Text

  datatype Url = Url(scheme: string, netloc: string, path: string, params: string, query: string, fragment: string)

  /** The schemes whose last path segment may carry `;parameters`. */
  const UsesParams: set<string> := {
    "", "ftp", "hdl", "prospero", "http", "imap", "https", "shttp", "rtsp",
    "rtspu", "sip", "sips", "mms", "sftp", "tel"
  }

  predicate IsAsciiLetter(ch: char) {
    'a' <= ch <= 'z' || 'A' <= ch <= 'Z'
  }

  predicate IsSchemeChar(ch: char) {
    IsAsciiLetter(ch) || '0' <= ch <= '9' || ch == '+' || ch == '-' || ch == '.'
  }

  predicate IsScheme(s: string) {
    |s| > 0 && IsAsciiLetter(s[0]) && forall k :: 0 <= k < |s| ==> IsSchemeChar(s[k])
  }

  /** The index of the first character of `s` that is in `cs`, or `|s|`. */
  function IndexOfAny(s: string, cs: set<char>): (i: nat)
    ensures i <= |s|
    ensures i < |s| ==> s[i] in cs
    ensures forall j :: 0 <= j < i ==> s[j] !in cs
    decreases |s|
  {
    if |s| == 0 || s[0] in cs then 0 else 1 + IndexOfAny(s[1..], cs)
  }

  /** `s.partition(c)`: the text before the first `c`, whether there is one, and the rest. */
  function Partition(s: string, c: char): (r: (string, bool, string))
    ensures r.1 <==> c in s
    ensures r.1 ==> s == r.0 + [c] + r.2 && c !in r.0
    ensures !r.1 ==> r.0 == s && r.2 == ""
  {
    match FindChar(s, c)
    case None => (s, false, "")
    case Some(i) =>
      assert s == s[..i] + [c] + s[i + 1..];
      (s[..i], true, s[i + 1..])
  }

  /** `s.rpartition(c)`'s last part: the text after the last `c`, or all of `s`. */
  function AfterLast(s: string, c: char): (r: string)
    ensures EndsWith(s, r) && c !in r
  {
    match RFindChar(s, c)
    case None => s
    case Some(i) => s[i + 1..]
  }

  /** The scheme test of `urlsplit`: letters first, then scheme characters, up to the first `:`. */
  function SplitScheme(u: string): (string, string) {
    match FindChar(u, ':')
    case None => ("", u)
    case Some(i) => if IsScheme(u[..i]) then (Lower(u[..i]), u[i + 1..]) else ("", u)
  }

  const NetlocDelimiters: set<char> := {'/', '?', '#'}

  /** `_splitnetloc`: after a leading `//`, the network location runs to the first `/`, `?` or `#`. */
  function SplitNetloc(rest: string): (r: (string, string))
    ensures forall k :: 0 <= k < |r.0| ==> r.0[k] !in NetlocDelimiters
    ensures StartsWith(rest, "//") ==> rest == "//" + r.0 + r.1
    ensures !StartsWith(rest, "//") ==> r == ("", rest)
  {
    if StartsWith(rest, "//") then
      var s := rest[2..];
      var end := IndexOfAny(s, NetlocDelimiters);
      assert rest == "//" + s[..end] + s[end..];
      (s[..end], s[end..])
    else ("", rest)
  }

  /** What follows the network location: fragment after `#`, query after `?`, parameters after `;`. */
  function SplitPathPart(scheme: string, rest: string): (r: (string, string, string, string))
    ensures '?' !in r.0 && '#' !in r.0
  {
    var (beforeFragment, _, fragment) := Partition(rest, '#');
    var (path, _, query) := Partition(beforeFragment, '?');
    if scheme in UsesParams && ';' in path then
      var (path', params) := SplitParams(path);
      (path', params, query, fragment)
    else (path, "", query, fragment)
  }

  /** `_splitparams`: `;parameters` are cut from the last path segment only. */
  function SplitParams(path: string): (r: (string, string))
    requires ';' in path
    ensures forall k :: 0 <= k < |r.0| ==> r.0[k] in path
  {
    if '/' in path then
      var last := RFindChar(path, '/').value;
      match FindChar(path[last..], ';')
      case None => (path, "")
      case Some(j) => (path[..last + j], path[last + j + 1..])
    else
      var i := FindChar(path, ';').value;
      (path[..i], path[i + 1..])
  }

  /**
   * `urlparse(u)`: an unbalanced `[` or `]` in the network location raises
   * `ValueError`; otherwise the six components.
   */
  function UrlParse(u: string): (r: Result<Url>)
    ensures r.Ok? ==> '/' !in r.value.netloc && '?' !in r.value.netloc && '#' !in r.value.netloc
    ensures r.Ok? ==> '?' !in r.value.path && '#' !in r.value.path
    ensures r.Err? ==> r.error == Builtin("ValueError", "Invalid IPv6 URL")
  {
    var (scheme, rest) := SplitScheme(u);
    var (netloc, afterNetloc) := SplitNetloc(rest);
    if ('[' in netloc && ']' !in netloc) || (']' in netloc && '[' !in netloc) then
      Err(Builtin("ValueError", "Invalid IPv6 URL"))
    else
      var (path, params, query, fragment) := SplitPathPart(scheme, afterNetloc);
      Ok(Url(scheme, netloc, path, params, query, fragment))
  }

  /** `parsed.hostname`: user info and port removed, lower-cased, `None` when empty. */
  function Hostname(netloc: string): (r: Option<string>)
    ensures r.Some? ==> |r.value| > 0
  {
    var hostinfo := AfterLast(netloc, '@');
    var (_, hasOpen, bracketed) := Partition(hostinfo, '[');
    var host := if hasOpen then Partition(bracketed, ']').0 else Partition(hostinfo, ':').0;
    if host == "" then None
    else
      var (name, hasZone, zone) := Partition(host, '%');
      Some(Lower(name) + (if hasZone then "%" + zone else ""))
  }

  /** An f-string rendering of an optional host: Python prints `None` for a missing one. */
  function HostText(h: Option<string>): string {
    match h
    case Some(v) => v
    case None => "None"
  }

  /** A host name that `hostname` returns unchanged. */
  predicate IsPlainHost(h: string) {
    && |h| > 0
    && forall k :: 0 <= k < |h| ==> h[k] !in {'/', '?', '#', '@', ':', '[', ']', '%', '\U{212A}'} && !('A' <= h[k] <= 'Z')
  }

  lemma SchemeOfComposed(scheme: string, rest: string)
    requires IsScheme(scheme) && Lower(scheme) == scheme
    ensures SplitScheme(scheme + ":" + rest) == (scheme, rest)
  {
    var u := scheme + ":" + rest;
    assert ':' !in scheme by {
      assert forall k :: 0 <= k < |scheme| ==> IsSchemeChar(scheme[k]);
    }
    var f := FindChar(u, ':');
    assert u[|scheme|] == ':';
    assert f.Some?;
    assert u[..|scheme|] == scheme;
    assert u[|scheme| + 1..] == rest;
  }

  lemma NetlocOfComposed(host: string, path: string)
    requires forall k :: 0 <= k < |host| ==> host[k] !in NetlocDelimiters
    requires path == "" || path[0] == '/'
    ensures SplitNetloc("//" + host + path) == (host, path)
  {
    var rest := "//" + host + path;
    var s := rest[2..];
    assert s == host + path;
    var end := IndexOfAny(s, NetlocDelimiters);
    assert end <= |host| by {
      if |path| > 0 {
        assert s[|host|] == path[0] == '/';
      }
    }
    assert s[..|host|] == host;
    assert s[|host|..] == path;
  }

  lemma PathPartOfPlain(scheme: string, path: string)
    requires '?' !in path && '#' !in path && ';' !in path
    ensures SplitPathPart(scheme, path) == (path, "", "", "")
  {
  }

  lemma HostnameOfPlain(host: string)
    requires IsPlainHost(host)
    ensures Hostname(host) == Some(host)
  {
    assert AfterLast(host, '@') == host;
    assert Partition(host, '[') == (host, false, "");
    assert Partition(host, ':') == (host, false, "");
    assert Partition(host, '%') == (host, false, "");
    assert Lower(host) == host by {
      forall i | 0 <= i < |host|
        ensures LowerChar(host[i]) == host[i]
      {
        assert !('A' <= host[i] <= 'Z') && host[i] != '\U{212A}';
      }
    }
    assert Lower(host) + "" == host;
  }

  /**
   * A URL written `scheme://host/path` parses back into exactly those parts,
   * and its host name is the host.
   */
  lemma ParseComposed(scheme: string, host: string, path: string)
    requires IsScheme(scheme) && Lower(scheme) == scheme
    requires IsPlainHost(host)
    requires path == "" || path[0] == '/'
    requires '?' !in path && '#' !in path && ';' !in path
    ensures UrlParse(scheme + "://" + host + path) == Ok(Url(scheme, host, path, "", "", ""))
    ensures Hostname(host) == Some(host)
  {
    assert scheme + "://" + host + path == scheme + ":" + ("//" + host + path);
    SchemeOfComposed(scheme, "//" + host + path);
    NetlocOfComposed(host, path);
    PathPartOfPlain(scheme, path);
    HostnameOfPlain(host);
  }
}
