/**
 * POSIX `pathlib.PurePath` as the core uses it: parsing a string into an
 * anchor and segments, `str(path)`, `.name`, `.suffix`, `.parent` and `/`.
 * Parsing collapses repeated slashes and drops `.` segments; exactly two
 * leading slashes form an anchor of their own.
 */
module Paths {
  import opened Common
  import opened Text

  /** A parsed path: its anchor (`""`, `"/"` or `"//"`) and its segments. */
  datatype PurePath = PurePath(root: string, tail: seq<string>)

  predicate IsSegment(x: string) {
    x != "" && x != "." && '/' !in x
  }

  predicate WellFormed(p: PurePath) {
    && (p.root == "" || p.root == "/" || p.root == "//")
    && forall i :: 0 <= i < |p.tail| ==> IsSegment(p.tail[i])
  }

  /** The split of a path string into its anchor and the relative rest. */
  function SplitRoot(s: string): (string, string) {
    if |s| == 0 || s[0] != '/' then ("", s)
    else if |s| >= 2 && s[1] == '/' && !(|s| >= 3 && s[2] == '/') then ("//", s[2..])
    else ("/", LStrip(s, '/'))
  }

  /** The pieces of a relative part that survive parsing: neither empty nor `.`. */
  function Segments(parts: seq<string>): (r: seq<string>)
    requires forall i :: 0 <= i < |parts| ==> '/' !in parts[i]
    ensures forall i :: 0 <= i < |r| ==> IsSegment(r[i])
    decreases |parts|
  {
    if |parts| == 0 then []
    else if parts[0] == "" || parts[0] == "." then Segments(parts[1..])
    else [parts[0]] + Segments(parts[1..])
  }

  lemma {:induction false} SegmentsKeep(parts: seq<string>)
    requires forall i :: 0 <= i < |parts| ==> '/' !in parts[i]
    requires forall i :: 0 <= i < |parts| ==> IsSegment(parts[i])
    ensures Segments(parts) == parts
    decreases |parts|
  {
    if |parts| > 0 {
      SegmentsKeep(parts[1..]);
      assert parts == [parts[0]] + parts[1..];
    }
  }

  /** `PurePosixPath(s)`. */
  function Parse(s: string): (p: PurePath)
    ensures WellFormed(p)
  {
    var (root, rel) := SplitRoot(s);
    PurePath(root, Segments(SplitOn(rel, '/')))
  }

  /** `str(path)`: the anchor and the segments joined by `/`, or `.` when both are empty. */
  function Format(p: PurePath): string {
    var body := p.root + Join(p.tail, "/");
    if body == "" then "." else body
  }

  /** `str(Path(s))`. */
  function Normalize(s: string): string {
    Format(Parse(s))
  }

  /** `s` is already in the form `str(Path(s))` gives. */
  predicate IsNormal(s: string) {
    Normalize(s) == s
  }

  lemma {:induction false} JoinStartsWithFirst(parts: seq<string>, sep: string)
    requires |parts| > 0
    ensures StartsWith(Join(parts, sep), parts[0])
  {
    if |parts| > 1 {
      assert Join(parts, sep)[..|parts[0]|] == parts[0];
    }
  }

  /** Printing a parsed path and parsing it again gives the same path. */
  lemma ParseFormat(p: PurePath)
    requires WellFormed(p)
    ensures Parse(Format(p)) == p
  {
    var s := Format(p);
    if |p.tail| == 0 {
      if p.root == "" {
        assert s == ".";
        SplitNoSeparator(".", '/');
      } else if p.root == "/" {
        assert s == "/";
        assert LStrip(s, '/') == LStrip("", '/') == "";
        assert SplitRoot(s) == ("/", "");
        assert SplitOn("", '/') == [""];
        assert Segments([""]) == Segments([]);
      } else {
        assert s == "//";
        assert SplitRoot(s) == ("//", "");
        assert SplitOn("", '/') == [""];
        assert Segments([""]) == Segments([]);
      }
    } else {
      var j := Join(p.tail, "/");
      JoinStartsWithFirst(p.tail, "/");
      assert j[0] == p.tail[0][0];
      assert j[0] != '/' by {
        assert p.tail[0][0] in p.tail[0];
      }
      assert s == p.root + j;
      if p.root == "" {
        assert s == j;
        assert SplitRoot(s) == ("", j);
      } else if p.root == "/" {
        assert s == "/" + j;
        assert s[1..] == j;
        assert LStrip(s, '/') == j;
        assert SplitRoot(s) == ("/", j);
      } else {
        assert s == "//" + j;
        assert s[2..] == j;
        assert SplitRoot(s) == ("//", j);
      }
      SplitJoin(p.tail, '/');
      SegmentsKeep(p.tail);
    }
  }

  /** Normalising is idempotent: `Path(str(Path(s)))` prints as `str(Path(s))`. */
  lemma NormalizeIdempotent(s: string)
    ensures IsNormal(Normalize(s))
  {
    ParseFormat(Parse(s));
  }

  /** `path.name`: the last segment, or `""` for a bare anchor or `.`. */
  function Name(s: string): (r: string)
    ensures r == "" || IsSegment(r)
  {
    var p := Parse(s);
    if |p.tail| == 0 then "" else p.tail[|p.tail| - 1]
  }

  /** `path.suffix`: from the last dot of the name, when that dot is neither first nor last. */
  function Suffix(s: string): (r: string)
    ensures r == "" || (|r| >= 2 && r[0] == '.' && '.' !in r[1..])
    ensures r != "" ==> EndsWith(Name(s), r) && |r| < |Name(s)|
  {
    var n := Name(s);
    match RFindChar(n, '.')
    case None => ""
    case Some(i) => if 0 < i < |n| - 1 then n[i..] else ""
  }

  /** `path.parent`: all segments but the last; the path itself when there is none. */
  function Parent(s: string): (r: string)
    ensures IsNormal(r)
  {
    var p := Parse(s);
    var q := if |p.tail| == 0 then p else PurePath(p.root, p.tail[..|p.tail| - 1]);
    ParseFormat(q);
    Format(q)
  }

  /** `str(Path(dir) / name)`: an absolute `name` replaces `dir`, otherwise segments are appended. */
  function JoinPath(dir: string, name: string): (r: string)
    ensures IsNormal(r)
  {
    var d := Parse(dir);
    var n := Parse(name);
    var q := if n.root != "" then n else PurePath(d.root, d.tail + n.tail);
    ParseFormat(q);
    Format(q)
  }

  /** A single segment parses as itself. */
  lemma ParseSegment(x: string)
    requires IsSegment(x)
    ensures Parse(x) == PurePath("", [x])
  {
    SplitNoSeparator(x, '/');
    assert x[0] in x;
    assert SplitRoot(x) == ("", x);
    assert Segments([x]) == [x] + Segments([]);
  }

  /**
   * Joining a single segment onto a directory gives a path whose name is that
   * segment and whose parent is the directory, as printed.
   */
  lemma JoinSegment(dir: string, x: string)
    requires IsSegment(x)
    ensures Name(JoinPath(dir, x)) == x
    ensures Parent(JoinPath(dir, x)) == Normalize(dir)
  {
    ParseSegment(x);
    var d := Parse(dir);
    var q := PurePath(d.root, d.tail + [x]);
    assert WellFormed(q);
    ParseFormat(q);
    assert JoinPath(dir, x) == Format(q);
    assert q.tail[..|q.tail| - 1] == d.tail;
  }

  /** Joining the empty name gives the directory itself, as printed. */
  lemma JoinEmpty(dir: string)
    ensures JoinPath(dir, "") == Normalize(dir)
  {
    assert SplitRoot("") == ("", "");
    assert SplitOn("", '/') == [""];
    assert Segments([""]) == Segments([]);
    assert Parse("") == PurePath("", []);
    assert Parse(dir).tail + [] == Parse(dir).tail;
  }

  /** A printed path is its parent joined with its name. */
  lemma ParentJoinName(p: string)
    requires IsNormal(p)
    requires Name(p) != ""
    ensures JoinPath(Parent(p), Name(p)) == p
  {
    var q := Parse(p);
    var n := |q.tail|;
    var x := q.tail[n - 1];
    var d := PurePath(q.root, q.tail[..n - 1]);
    ParseFormat(d);
    ParseSegment(x);
    assert Parse(Parent(p)) == d;
    assert d.tail + [x] == q.tail;
  }

  /** A path without a name (an anchor or `.`) is its own parent. */
  lemma NamelessIsOwnParent(p: string)
    requires IsNormal(p)
    requires Name(p) == ""
    ensures Parent(p) == p
  {
  }

  /** `/dir/name` is named `name`. */
  lemma NameOfTwoSegments(dir: string, name: string)
    requires IsSegment(dir) && IsSegment(name)
    ensures Name("/" + dir + "/" + name) == name
  {
    var p := PurePath("/", [dir, name]);
    assert Join([dir, name], "/") == dir + "/" + name;
    assert Format(p) == "/" + dir + "/" + name;
    ParseFormat(p);
  }

  /** The root has no name. */
  lemma RootHasNoName()
    ensures Name("/") == ""
  {
    assert LStrip("/", '/') == "";
    assert SplitOn("", '/') == [""];
    assert Segments([""]) == [];
  }

  /** The directory every reader stages its copies into. */
  const StagingDir: string := "/tmp/policy-reader"

  lemma StagingDirIsNormal()
    ensures IsNormal(StagingDir)
    ensures Parse(StagingDir) == PurePath("/", ["tmp", "policy-reader"])
  {
    var p := PurePath("/", ["tmp", "policy-reader"]);
    assert Join(p.tail, "/") == "tmp/policy-reader";
    assert Format(p) == StagingDir;
    ParseFormat(p);
  }
}
