/** The disk as the file service's handlers see it: a map from path text to a
  * directory or a regular file, the structural rules of the std::fs calls the
  * handlers make, and PathBuf::push on Unix. */
module FileSystem {

  type Byte = bv8
  type Path = string

  datatype Option<T> = None | Some(value: T)

  /** What ends a handler early: a panic from `unwrap`/`expect`, or an error
    * returned with `?` (which the framework turns into an error response). */
  datatype Failure = Panicked(reason: string) | Errored(reason: string)

  datatype Node = Dir | File(bytes: seq<Byte>)

  /** The whole tree, keyed by path text exactly as the handlers spell it. */
  type Tree = map<Path, Node>

  /** One filesystem operation attempted by a handler; a journal of these
    * records the order in which a handler touches the disk. */
  datatype Effect =
    | MadeDirs(path: Path)                              // fs::create_dir_all
    | Created(path: Path)                               // File::create (create or truncate)
    | Wrote(path: Path, chunk: seq<Byte>)               // write_all of one chunk
    | RemovedFile(path: Path)                           // fs::remove_file
    | RemovedTree(path: Path)                           // fs::remove_dir_all
    | Unpacked(archive: Path, dest: Path)               // tar Archive::unpack of a gzip stream
    | PackedDir(source: Path, root: string, out: Path)  // tar Builder::append_dir_all
    | PackedFile(source: Path, root: string, out: Path) // tar Builder::append_file

  predicate IsDir(fs: Tree, p: Path) { p in fs && fs[p].Dir? }

  predicate IsFile(fs: Tree, p: Path) { p in fs && fs[p].File? }

  predicate StartsWith(s: string, prefix: string) {
    |prefix| <= |s| && s[..|prefix|] == prefix
  }

  /** PathBuf::push on Unix: an absolute segment replaces the whole path;
    * otherwise a separator is inserted unless the path is empty or already
    * ends with one. */
  function Push(base: Path, segment: string): Path {
    if StartsWith(segment, "/") then segment
    else if base == "" || base[|base| - 1] == '/' then base + segment
    else base + "/" + segment
  }

  /** Pushing a relative segment onto an empty base gives the segment itself;
    * onto a base that ends with a separator it is plain concatenation; onto
    * one that does not, it adds one '/'. */
  lemma PushRelative(base: Path, segment: string)
    requires !StartsWith(segment, "/")
    ensures base == "" ==> Push(base, segment) == segment
    ensures base != "" && base[|base| - 1] == '/' ==> Push(base, segment) == base + segment
    ensures base != "" && base[|base| - 1] != '/' ==> Push(base, segment) == base + "/" + segment
    ensures StartsWith(Push(base, segment), base)
  {
  }

  /** Pushing an absolute segment discards the base, whatever it is. */
  lemma PushAbsolute(base: Path, segment: string)
    requires StartsWith(segment, "/")
    ensures Push(base, segment) == segment
  {
  }

  /** The proper prefixes of `p` that end just before a '/': the directories
    * create_dir_all walks through on its way to `p`. */
  function Ancestors(p: Path): set<Path> {
    set i | 0 < i < |p| && p[i] == '/' :: p[..i]
  }

  /** Everything create_dir_all(p) makes sure is a directory; create_dir_all("")
    * succeeds without touching the disk. */
  function DirsOf(p: Path): set<Path> {
    if p == "" then {} else Ancestors(p) + {p}
  }

  /** create_dir_all fails when `p` or one of its ancestors is a regular file. */
  predicate CanMakeDirs(fs: Tree, p: Path) {
    forall q | q in DirsOf(p) :: !IsFile(fs, q)
  }

  /** The tree after a successful create_dir_all(p). */
  function MakeDirs(fs: Tree, p: Path): (r: Tree)
    requires CanMakeDirs(fs, p)
    ensures r.Keys == fs.Keys + DirsOf(p)
    ensures forall q | q in fs :: r[q] == fs[q]
    ensures forall q | q in DirsOf(p) :: IsDir(r, q)
    ensures p != "" ==> IsDir(r, p)
  {
    map q | q in fs.Keys + DirsOf(p) :: if q in fs then fs[q] else Dir
  }

  /** Position of the last '/' in `p`, or -1 when there is none. */
  function LastSlash(p: Path): (i: int)
    ensures -1 <= i < |p|
    ensures 0 <= i ==> p[i] == '/'
    ensures forall j | i < j < |p| :: p[j] != '/'
  {
    if p == "" then -1
    else if p[|p| - 1] == '/' then |p| - 1
    else LastSlash(p[..|p| - 1])
  }

  /** The directory a new file is created in; "" stands for the working or
    * root directory, which always exists. */
  function Parent(p: Path): Path {
    var i := LastSlash(p);
    if i <= 0 then "" else p[..i]
  }

  /** File::create fails on an empty name, a name ending in '/', an existing
    * directory, or a parent that is not an existing directory. */
  predicate CanCreateFile(fs: Tree, p: Path) {
    && p != ""
    && p[|p| - 1] != '/'
    && !IsDir(fs, p)
    && (Parent(p) == "" || IsDir(fs, Parent(p)))
  }

  /** After create_dir_all(dir), a plain name (non-empty, without '/') can be
    * created inside `dir` unless a directory already sits at that spot. */
  lemma CreateInMadeDir(fs: Tree, dir: Path, name: string)
    requires CanMakeDirs(fs, dir) && dir != ""
    requires name != "" && '/' !in name
    requires !IsDir(fs, dir + "/" + name)
    ensures CanCreateFile(MakeDirs(fs, dir), dir + "/" + name)
  {
    var p := dir + "/" + name;
    var i := LastSlash(p);
    assert p[|dir|] == '/';
    forall j | |dir| < j < |p| ensures p[j] != '/' {
      assert p[j] == name[j - |dir| - 1];
    }
    assert i == |dir|;
    assert p[|p| - 1] == name[|name| - 1];
    assert p[..i] == dir;
    forall q | q in DirsOf(dir) ensures |q| <= |dir| {
    }
    assert p !in DirsOf(dir);
  }

  /** `p` together with everything below it. */
  function Subtree(fs: Tree, p: Path): set<Path> {
    set q | q in fs && (q == p || StartsWith(q, p + "/"))
  }
}
