/**
 * The local file-system reader: a path is used where it is, without copying;
 * a listing keeps the regular files directly inside a directory.
 */
module LocalReader {
  import opened Common
  import opened Errors
  import opened Text
  import opened Paths
  import opened FileSystem

  /** A `file://` URI, or anything without `://` at all. */
  predicate Supports(uri: string) {
    StartsWith(uri, "file://") || !Contains(uri, "://")
  }

  /** `read_file`: the path as printed when something exists there, file or directory. */
  function ReadFile(fs: Fs, uri: string): (r: Result<Staged>)
    ensures r.Ok? <==> Exists(fs, uri)
    ensures r.Ok? ==> r.value.fs == fs && r.value.path in fs && Parse(r.value.path) == Parse(uri)
    ensures r.Ok? ==> IsNormal(r.value.path)
    ensures r.Err? ==> r.error == Raise(NotFoundError, "File not found: " + uri)
  {
    var p := Normalize(uri);
    NormalizeIdempotent(uri);
    ParseFormat(Parse(uri));
    if p in fs then Ok(Staged(p, fs)) else Err(Raise(NotFoundError, "File not found: " + uri))
  }

  /** An already printed path that exists is returned as it is, and nothing is staged. */
  lemma ReadInPlace(fs: Fs, p: string)
    requires IsNormal(p) && p in fs
    ensures ReadFile(fs, p) == Ok(Staged(p, fs))
  {
  }

  /**
   * The `file://` prefix is not stripped: the path looked up is relative, under
   * a directory literally named `file:`.
   */
  lemma FileUriStaysRelative(fs: Fs, rest: string)
    ensures Parse("file://" + rest).root == ""
    ensures |Parse("file://" + rest).tail| > 0 && Parse("file://" + rest).tail[0] == "file:"
  {
    var u := "file://" + rest;
    assert SplitRoot(u) == ("", u);
    assert u == "file:" + ['/'] + ("/" + rest);
    SplitAppend("file:", "/" + rest, '/');
    SplitNoSeparator("file:", '/');
    var parts := SplitOn(u, '/');
    assert parts[0] == "file:";
    assert parts == [parts[0]] + parts[1..];
  }

  /** The printed paths of a directory's entries, `dir_path.iterdir()`. */
  function ChildPaths(dir: string, names: seq<string>): (r: seq<string>)
    ensures |r| == |names|
    ensures forall k :: 0 <= k < |names| ==> r[k] == JoinPath(dir, names[k])
  {
    seq(|names|, k requires 0 <= k < |names| => JoinPath(dir, names[k]))
  }

  /** The entries for those of `paths` that are regular files, in listing order. */
  function FileEntries(fs: Fs, paths: seq<string>): (r: seq<DirEntry>)
    ensures |r| <= |paths|
    ensures forall e :: e in r ==> e.path in paths && e.path in fs && fs[e.path].File?
    ensures forall e :: e in r ==> e.size == |fs[e.path].data| && e.name == Name(e.path)
    ensures forall p :: p in paths && p in fs && fs[p].File? ==> exists e :: e in r && e.path == p
    decreases |paths|
  {
    if |paths| == 0 then []
    else
      var p := paths[0];
      var rest := FileEntries(fs, paths[1..]);
      assert forall q :: q in paths ==> q == p || q in paths[1..];
      if p in fs && fs[p].File? then [DirEntry(Name(p), p, |fs[p].data|)] + rest else rest
  }

  /**
   * `list_files`: a missing path is `NotFoundError`; a regular file fails to
   * list as a directory; otherwise the regular files directly inside it.
   */
  function ListFiles(fs: Fs, uri: string): (r: Result<seq<DirEntry>>)
    ensures r.Ok? <==> Exists(fs, uri) && fs[Normalize(uri)].Dir?
    ensures !Exists(fs, uri) ==> r == Err(Raise(NotFoundError, "Directory not found: " + uri))
    ensures r.Ok? ==> forall e :: e in r.value ==> e.path in fs && fs[e.path].File? && e.size == |fs[e.path].data|
    ensures r.Ok? ==> forall e :: e in r.value ==> e.name == Name(e.path)
    ensures r.Ok? ==> forall e :: e in r.value ==> e.path in ChildPaths(Normalize(uri), fs[Normalize(uri)].children)
    ensures r.Ok? ==> forall p :: p in ChildPaths(Normalize(uri), fs[Normalize(uri)].children) && p in fs && fs[p].File? ==>
      exists e :: e in r.value && e.path == p
  {
    var dir := Normalize(uri);
    if dir !in fs then Err(Raise(NotFoundError, "Directory not found: " + uri))
    else match fs[dir]
      case File(_) => Err(NotADirectory(dir))
      case Dir(children, _) => Ok(FileEntries(fs, ChildPaths(dir, children)))
  }
}
