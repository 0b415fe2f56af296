/**
 * The local file system as the readers and parsers see it: a map from printed
 * (normalised) path to node, with the `OSError`s that `stat`, `open` and
 * `write_bytes` raise.
 */
module FileSystem {
  import opened Common
  import opened Errors
  import opened Text
  import opened Paths

  /** A regular file with its bytes, or a directory with its entry names (in listing order) and `st_size`. */
  datatype Node = File(data: Bytes) | Dir(children: seq<string>, dirSize: nat)

  /** Keys are printed paths, `str(Path(...))`. */
  type Fs = map<string, Node>

  /** A local copy produced by a reader: its printed path and the file system after staging. */
  datatype Staged = Staged(path: string, fs: Fs)

  /** One listing entry: `{'name', 'path', 'size'}`; the `modified` timestamp is not modelled. */
  datatype DirEntry = DirEntry(name: string, path: string, size: nat)

  function FileNotFound(path: string): Error {
    Builtin("FileNotFoundError", "[Errno 2] No such file or directory: '" + path + "'")
  }

  function IsADirectory(path: string): Error {
    Builtin("IsADirectoryError", "[Errno 21] Is a directory: '" + path + "'")
  }

  function NotADirectory(path: string): Error {
    Builtin("NotADirectoryError", "[Errno 20] Not a directory: '" + path + "'")
  }

  /** `Path(p).exists()`. */
  predicate Exists(fs: Fs, p: string) {
    Normalize(p) in fs
  }

  /** `st_size` of a node. */
  function Size(n: Node): nat {
    match n
    case File(data) => |data|
    case Dir(_, s) => s
  }

  /** `Path(p).stat().st_size`. */
  function Stat(fs: Fs, p: string): (r: Result<nat>)
    requires IsNormal(p)
    ensures r.Ok? <==> p in fs
    ensures r.Ok? ==> r.value == Size(fs[p])
    ensures r.Err? ==> r.error == FileNotFound(p)
  {
    if p in fs then Ok(Size(fs[p])) else Err(FileNotFound(p))
  }

  /** The node at `p`, or the error opening a missing path raises. */
  function Open(fs: Fs, p: string): (r: Result<Node>)
    requires IsNormal(p)
    ensures r.Ok? <==> p in fs
    ensures r.Ok? ==> r.value == fs[p]
  {
    if p in fs then Ok(fs[p]) else Err(FileNotFound(p))
  }

  /** `open(p, 'rb').read()`: only a regular file can be read. */
  function ReadBytes(fs: Fs, p: string): (r: Result<Bytes>)
    requires IsNormal(p)
    ensures r.Ok? <==> p in fs && fs[p].File?
    ensures r.Ok? ==> r.value == fs[p].data
  {
    if p !in fs then Err(FileNotFound(p))
    else match fs[p]
      case File(data) => Ok(data)
      case Dir(_, _) => Err(IsADirectory(p))
  }

  /** A directory's listing with `name` present. */
  function AddChild(children: seq<string>, name: string): (r: seq<string>)
    ensures name in r
    ensures forall c :: c in children ==> c in r
  {
    if name in children then children else children + [name]
  }

  /**
   * `Path(p).write_bytes(data)`: creates or truncates a regular file; its
   * parent must be an existing directory and `p` must not be a directory.
   */
  function WriteBytes(fs: Fs, p: string, data: Bytes): (r: Result<Fs>)
    requires IsNormal(p)
    ensures r.Ok? <==> !(p in fs && fs[p].Dir?) && Parent(p) in fs && fs[Parent(p)].Dir?
    ensures r.Ok? ==> p in r.value && r.value[p] == File(data)
    ensures r.Ok? ==> forall q :: q != p && q != Parent(p) ==> (q in r.value <==> q in fs) && (q in fs ==> r.value[q] == fs[q])
    ensures r.Ok? ==> r.value.Keys == fs.Keys + {p}
  {
    var parent := Parent(p);
    if p in fs && fs[p].Dir? then Err(IsADirectory(p))
    else if parent !in fs then Err(FileNotFound(p))
    else match fs[parent]
      case File(_) => Err(NotADirectory(p))
      case Dir(children, size) =>
        Ok(fs[p := File(data)][parent := Dir(AddChild(children, Name(p)), size)])
  }

  /**
   * Every key is a printed path, and every name a directory lists is a
   * segment whose joined path is present.
   */
  predicate Consistent(fs: Fs) {
    && (forall p :: p in fs ==> IsNormal(p))
    && (forall p :: p in fs && fs[p].Dir? ==>
          forall c :: c in fs[p].children ==> IsSegment(c) && JoinPath(p, c) in fs)
  }

  /** Writing a file keeps the file system consistent: the new file is listed by its parent. */
  lemma WriteKeepsConsistent(fs: Fs, p: string, data: Bytes)
    requires Consistent(fs)
    requires IsNormal(p)
    requires WriteBytes(fs, p, data).Ok?
    ensures Consistent(WriteBytes(fs, p, data).value)
  {
    var fs' := WriteBytes(fs, p, data).value;
    var parent := Parent(p);
    if Name(p) == "" {
      NamelessIsOwnParent(p);
      assert false;
    }
    ParentJoinName(p);
    forall q | q in fs' && fs'[q].Dir?
      ensures forall c :: c in fs'[q].children ==> IsSegment(c) && JoinPath(q, c) in fs'
    {
      if q != parent {
        assert fs'[q] == fs[q];
      }
    }
  }

  /** Writing a named file into an existing directory succeeds unless a directory has that name. */
  lemma WriteIntoDir(fs: Fs, dir: string, x: string, data: Bytes)
    requires IsNormal(dir) && dir in fs && fs[dir].Dir?
    requires IsSegment(x)
    requires !(JoinPath(dir, x) in fs && fs[JoinPath(dir, x)].Dir?)
    ensures WriteBytes(fs, JoinPath(dir, x), data).Ok?
  {
    JoinSegment(dir, x);
  }
}
