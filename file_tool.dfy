/** The file tool: reads and writes text files whose paths, once resolved,
    stay inside a fixed project root. Paths are sequences of segments,
    resolved lexically; the file system is a map from path to content plus
    the set of directories. */
module FileTool {
  import opened Values
  import opened Text
  import opened Patterns

  /** An absolute path, as its segments (`[]` is the file-system root). */
  type Path = seq<string>

  /** `s.split("/")`. */
  function Split(s: string): (r: seq<string>)
    ensures |r| >= 1
    decreases |s|
  {
    var i := IndexOf(s, '/');
    if i == |s| then [s] else [s[..i]] + Split(s[i + 1..])
  }

  /** Lexical resolution: empty and `.` segments are dropped, `..` removes the
      last segment (and stays at the file-system root), others are appended. */
  function Normalize(base: Path, segs: seq<string>): Path
    decreases |segs|
  {
    if segs == [] then base
    else
      var seg := segs[0];
      var next :=
        if seg == "" || seg == "." then base
        else if seg == ".." then (if base == [] then [] else base[..|base| - 1])
        else base + [seg];
      Normalize(next, segs[1..])
  }

  /** `(root / path).resolve()` without symbolic links: an absolute `path`
      replaces the root. */
  function Resolve(root: Path, path: string): Path {
    Normalize(if |path| > 0 && path[0] == '/' then [] else root, Split(path))
  }

  const OutsideRoot: string := "Attempt to access outside project root"

  /** `safe_path`: the resolved path when it is the root or lies under it,
      otherwise the PermissionError it raises. */
  function SafePath(root: Path, path: string): (r: Outcome<Path>)
    ensures r.Returned? <==> root <= Resolve(root, path)
    ensures r.Returned? ==> r.value == Resolve(root, path) && root <= r.value
    ensures r.Raised? ==> r.exception == OutsideRoot
  {
    var p := Resolve(root, path);
    if root <= p then Returned(p) else Raised(OutsideRoot)
  }

  /** Resolving segments that hold no `..` only extends the base. */
  lemma {:induction false} NormalizeExtends(base: Path, segs: seq<string>)
    requires forall k :: 0 <= k < |segs| ==> segs[k] != ".."
    ensures base <= Normalize(base, segs)
    decreases |segs|
  {
    if segs != [] {
      var seg := segs[0];
      var next := if seg == "" || seg == "." then base else base + [seg];
      assert forall k :: 0 <= k < |segs[1..]| ==> segs[1..][k] == segs[k + 1];
      NormalizeExtends(next, segs[1..]);
    }
  }

  /** A relative path without `..` segments is always confined to the root. */
  lemma RelativeWithoutParentIsConfined(root: Path, path: string)
    requires path == [] || path[0] != '/'
    requires forall k :: 0 <= k < |Split(path)| ==> Split(path)[k] != ".."
    ensures SafePath(root, path).Returned?
  {
    NormalizeExtends(root, Split(path));
  }

  /** A plain segment: not empty, not `.` or `..`, and without a slash. */
  predicate PlainName(name: string) {
    name != "" && name != "." && name != ".." && '/' !in name
  }

  /** `../name` escapes the root unless `name` is the root's own last segment
      (then it resolves back to the root). */
  lemma ParentEscapes(root: Path, name: string)
    requires root != [] && PlainName(name)
    ensures SafePath(root, "../" + name).Raised? <==> name != root[|root| - 1]
  {
    var path := "../" + name;
    assert IndexOf(path, '/') == 2 by {
      assert path[0] == '.' && path[1] == '.' && path[2] == '/';
    }
    assert path[3..] == name;
    assert IndexOf(name, '/') == |name|;
    assert path[..2] == "..";
    assert Split(path) == [".."] + [name];
    var up := root[..|root| - 1];
    assert Normalize(root, Split(path)) == Normalize(up, [name]) by {
      assert Split(path)[0] == ".." && Split(path)[1..] == [name];
    }
    assert Normalize(up, [name]) == Normalize(up + [name], []) by {
      assert [name][1..] == [];
    }
    var p := up + [name];
    assert Resolve(root, path) == p;
    if name == root[|root| - 1] {
      assert p == root;
    } else {
      assert p[|root| - 1] != root[|root| - 1];
    }
  }

  /** The file system's contents. */
  datatype Fs = Fs(files: map<Path, string>, dirs: set<Path>)

  ghost predicate AncestorsAreDirs(p: Path, dirs: set<Path>) {
    forall k :: 0 <= k < |p| ==> p[..k] in dirs
  }

  /** A well-formed file system: the root directory exists, nothing is both a
      file and a directory, and every entry sits in existing directories. */
  ghost predicate WellFormed(fs: Fs) {
    && [] in fs.dirs
    && (forall p :: p in fs.files ==> p !in fs.dirs && AncestorsAreDirs(p, fs.dirs))
    && (forall d :: d in fs.dirs ==> AncestorsAreDirs(d, fs.dirs))
  }

  /** `str(path)`. */
  function PathText(p: Path): string {
    "/" + Join(p, "/")
  }

  /** Text of an OSError raised for path `p`. */
  function OsError(errno: nat, reason: string, p: Path): string {
    "[Errno " + NatToString(errno) + "] " + reason + ": '" + PathText(p) + "'"
  }

  function IsADirectory(p: Path): string { OsError(21, "Is a directory", p) }
  function FileExists(p: Path): string { OsError(17, "File exists", p) }
  function NotADirectory(p: Path): string { OsError(20, "Not a directory", p) }
  function NoSuchFile(p: Path): string { OsError(2, "No such file or directory", p) }

  /** `p.parent` (the root is its own parent). */
  function Parent(p: Path): Path {
    if p == [] then [] else p[..|p| - 1]
  }

  /** The shortest proper ancestor of `p` that is not a directory: where the
      operating system stops when it walks the path. */
  function FirstNonDir(dirs: set<Path>, p: Path): (r: Option<nat>)
    ensures r.Some? ==> r.value < |p| && p[..r.value] !in dirs
    ensures r.Some? ==> forall k :: 0 <= k < r.value ==> p[..k] in dirs
    ensures r.None? ==> forall k :: 0 <= k < |p| ==> p[..k] in dirs
  {
    if p == [] then None
    else
      var hit := (k: nat) => MissingDir(dirs, p, k);
      var r := FirstHit(|p| - 1, hit, 0);
      forall k: nat | k < (if r.Some? then r.value else |p|) ensures p[..k] in dirs {
        assert !hit(k);
      }
      r
  }

  predicate MissingDir(dirs: set<Path>, p: Path, k: nat) {
    k < |p| && p[..k] !in dirs
  }

  ghost function Prefixes(d: Path): set<Path> {
    set j | 0 <= j <= |d| :: d[..j]
  }

  /** `d.mkdir(parents=True, exist_ok=True)`. */
  function Mkdir(fs: Fs, d: Path): (r: Outcome<Fs>)
    ensures r.Returned? ==> r.value.files == fs.files && fs.dirs <= r.value.dirs && d in r.value.dirs
    ensures r.Raised? ==> d in fs.files || exists k :: 0 <= k < |d| && d[..k] in fs.files
  {
    match FirstNonDir(fs.dirs, d)
    case None =>
      if d in fs.dirs then Returned(fs)
      else if d in fs.files then Raised(FileExists(d))
      else Returned(Fs(fs.files, fs.dirs + {d}))
    case Some(k) =>
      if d[..k] in fs.files then Raised(NotADirectory(d))
      else
        assert d == d[..|d|];
        Returned(Fs(fs.files, fs.dirs + (set j | k <= j <= |d| :: d[..j])))
  }

  /** `p.write_text(content)`. */
  function WriteText(fs: Fs, p: Path, content: string): (r: Outcome<Fs>)
    ensures r.Returned? <==> p !in fs.dirs && forall k :: 0 <= k < |p| ==> p[..k] in fs.dirs
    ensures r.Returned? ==> r.value == Fs(fs.files[p := content], fs.dirs)
  {
    match FirstNonDir(fs.dirs, p)
    case None =>
      if p in fs.dirs then Raised(IsADirectory(p)) else Returned(Fs(fs.files[p := content], fs.dirs))
    case Some(k) =>
      if p[..k] in fs.files then Raised(NotADirectory(p)) else Raised(NoSuchFile(p))
  }

  /** What `read_file` returns. */
  datatype ReadReply = ReadOk(content: string) | ReadErr(error: string) {
    function ToJson(): Json {
      match this
      case ReadOk(c) => JObj([("ok", JBool(true)), ("content", JStr(c))])
      case ReadErr(e) => JObj([("ok", JBool(false)), ("error", JStr(e)), ("content", JStr(""))])
    }
  }

  /** What `write_file` returns. */
  datatype WriteReply = WriteOk | WriteErr(error: string) {
    function ToJson(): Json {
      match this
      case WriteOk => JObj([("ok", JBool(true))])
      case WriteErr(e) => JObj([("ok", JBool(false)), ("error", JStr(e))])
    }
  }

  /** `read_file(path)`: every failure is turned into an error reply. */
  function Read(root: Path, fs: Fs, path: string): (r: ReadReply)
    ensures SafePath(root, path).Raised? ==> r == ReadErr(OutsideRoot)
    ensures r.ReadOk? <==> var p := SafePath(root, path);
      p.Returned? && p.value in fs.files && p.value !in fs.dirs
    ensures r.ReadOk? ==> r.content == fs.files[SafePath(root, path).value]
  {
    match SafePath(root, path)
    case Raised(e) => ReadErr(e)
    case Returned(p) =>
      if p !in fs.files && p !in fs.dirs then ReadErr("not_found")
      else if p in fs.dirs then ReadErr(IsADirectory(p))
      else ReadOk(fs.files[p])
  }

  /** `write_file(path, content, create_dirs)`: the reply and the file system
      afterwards. Directories made before a failing write remain. */
  function Write(root: Path, fs: Fs, path: string, content: string, createDirs: bool): (r: (WriteReply, Fs))
    ensures SafePath(root, path).Raised? ==> r == (WriteErr(OutsideRoot), fs)
    ensures r.0 == WriteOk ==> var p := SafePath(root, path);
      p.Returned? && r.1.files == fs.files[p.value := content] && p.value !in r.1.dirs
    ensures r.0 != WriteOk ==> r.1.files == fs.files
    ensures fs.dirs <= r.1.dirs
  {
    match SafePath(root, path)
    case Raised(e) => (WriteErr(e), fs)
    case Returned(p) =>
      var made := if createDirs then Mkdir(fs, Parent(p)) else Returned(fs);
      match made
      case Raised(e) => (WriteErr(e), fs)
      case Returned(fs1) =>
        match WriteText(fs1, p, content)
        case Raised(e) => (WriteErr(e), fs1)
        case Returned(fs2) => (WriteOk, fs2)
  }

  /** A successful `mkdir` leaves `d` and all its ancestors directories and
      every file where it was. */
  lemma MkdirMakesAncestors(fs: Fs, d: Path)
    requires WellFormed(fs) && Mkdir(fs, d).Returned?
    ensures var fs1 := Mkdir(fs, d).value;
      && fs1.files == fs.files && fs.dirs <= fs1.dirs
      && d in fs1.dirs && AncestorsAreDirs(d, fs1.dirs)
  {
    var fs1 := Mkdir(fs, d).value;
    match FirstNonDir(fs.dirs, d)
    case None =>
    case Some(k) =>
      forall j | 0 <= j < |d| ensures d[..j] in fs1.dirs {
        if j >= k { assert d[..j] in (set j | k <= j <= |d| :: d[..j]); }
      }
      assert d == d[..|d|];
  }

  /** `mkdir` keeps the file system well formed. */
  lemma MkdirWellFormed(fs: Fs, d: Path)
    requires WellFormed(fs) && Mkdir(fs, d).Returned?
    ensures WellFormed(Mkdir(fs, d).value)
  {
    var fs1 := Mkdir(fs, d).value;
    match FirstNonDir(fs.dirs, d)
    case None =>
      forall e | e in fs1.dirs ensures AncestorsAreDirs(e, fs1.dirs) {
        if e == d { } else { assert AncestorsAreDirs(e, fs.dirs); }
      }
    case Some(k) =>
      var made := set j | k <= j <= |d| :: d[..j];
      // Nothing at or below the missing ancestor exists yet.
      forall j | k < j <= |d| ensures d[..j] !in fs.files && d[..j] !in fs.dirs {
        assert d[..j][..k] == d[..k];
      }
      forall p | p in fs1.files ensures p !in fs1.dirs {
        assert p in fs.files;
      }
      forall e | e in fs1.dirs ensures AncestorsAreDirs(e, fs1.dirs) {
        if e in made {
          var j :| k <= j <= |d| && e == d[..j];
          forall i | 0 <= i < |e| ensures e[..i] in fs1.dirs {
            assert e[..i] == d[..i];
            if i >= k { assert d[..i] in made; }
          }
        } else {
          assert AncestorsAreDirs(e, fs.dirs);
        }
      }
      forall p | p in fs1.files ensures AncestorsAreDirs(p, fs1.dirs) {
        assert AncestorsAreDirs(p, fs.dirs);
      }
  }

  /** `write_text` keeps the file system well formed. */
  lemma WriteTextWellFormed(fs: Fs, p: Path, content: string)
    requires WellFormed(fs) && WriteText(fs, p, content).Returned?
    ensures WellFormed(WriteText(fs, p, content).value)
  {
    var fs2 := WriteText(fs, p, content).value;
    forall q | q in fs2.files ensures q !in fs2.dirs && AncestorsAreDirs(q, fs2.dirs) {
      if q != p { assert q in fs.files; }
    }
  }

  /** Every write keeps the file system well formed. */
  lemma WriteWellFormed(root: Path, fs: Fs, path: string, content: string, createDirs: bool)
    requires WellFormed(fs)
    ensures WellFormed(Write(root, fs, path, content, createDirs).1)
  {
    match SafePath(root, path)
    case Raised(_) =>
    case Returned(p) =>
      var made := if createDirs then Mkdir(fs, Parent(p)) else Returned(fs);
      if createDirs && made.Returned? { MkdirWellFormed(fs, Parent(p)); }
      if made.Returned? && WriteText(made.value, p, content).Returned? {
        WriteTextWellFormed(made.value, p, content);
      }
  }

  /** Round trip: after a successful write, reading the same path returns
      exactly what was written. */
  lemma WriteThenRead(root: Path, fs: Fs, path: string, content: string, createDirs: bool)
    requires WellFormed(fs)
    requires Write(root, fs, path, content, createDirs).0 == WriteOk
    ensures Read(root, Write(root, fs, path, content, createDirs).1, path) == ReadOk(content)
  {
    var p := SafePath(root, path).value;
    var made := if createDirs then Mkdir(fs, Parent(p)) else Returned(fs);
    var fs2 := WriteText(made.value, p, content).value;
    assert p in fs2.files && p !in fs2.dirs && fs2.files[p] == content;
  }

  /** A path outside the root is refused before the file system is touched,
      by both operations. */
  lemma OutsideRootUntouched(root: Path, fs: Fs, path: string, content: string, createDirs: bool)
    requires !(root <= Resolve(root, path))
    ensures Write(root, fs, path, content, createDirs) == (WriteErr(OutsideRoot), fs)
    ensures Read(root, fs, path) == ReadErr(OutsideRoot)
    ensures Read(root, fs, path).ToJson() == JObj([("ok", JBool(false)), ("error", JStr(OutsideRoot)), ("content", JStr(""))])
  {
  }

  /** A confined path naming nothing reads as `not_found`. */
  lemma MissingIsNotFound(root: Path, fs: Fs, path: string)
    requires root <= Resolve(root, path)
    requires Resolve(root, path) !in fs.files && Resolve(root, path) !in fs.dirs
    ensures Read(root, fs, path) == ReadErr("not_found")
  {
  }

  /** With `create_dirs`, the parent directories exist when the text is
      written: a confined path that is not a directory and has no file among
      its ancestors is always written. */
  lemma CreateDirsWrites(root: Path, fs: Fs, path: string, content: string)
    requires WellFormed(fs)
    requires root <= Resolve(root, path)
    requires var p := Resolve(root, path); p !in fs.dirs && forall k :: 0 <= k < |p| ==> p[..k] !in fs.files
    ensures Write(root, fs, path, content, true).0 == WriteOk
  {
    var p := Resolve(root, path);
    var d := Parent(p);
    assert forall k :: 0 <= k <= |d| ==> d[..k] == p[..k];
    match FirstNonDir(fs.dirs, d)
    case None =>
      if p != [] { assert d == p[..|p| - 1]; assert d !in fs.files; }
    case Some(k) =>
      assert d[..k] == p[..k];
    MkdirMakesAncestors(fs, d);
    var fs1 := Mkdir(fs, d).value;
    assert forall k :: 0 <= k < |p| ==> p[..k] in fs1.dirs by {
      forall k | 0 <= k < |p| ensures p[..k] in fs1.dirs {
        assert p[..k] == d[..k];
        if k == |d| { assert d[..k] == d; }
      }
    }
    assert FirstNonDir(fs1.dirs, p).None?;
    // Every directory `mkdir` adds is shorter than `p`.
    assert p != [] && |d| == |p| - 1;
    match FirstNonDir(fs.dirs, d)
    case None =>
    case Some(k) => assert forall j :: k <= j <= |d| ==> |d[..j]| < |p|;
    assert p !in fs1.dirs;
  }

  /** The file system the tool works on: the project root, the files and the
      directories. `write_file` changes it in place. */
  class FileSystem {
    const root: Path
    var files: map<Path, string>
    var dirs: set<Path>

    ghost predicate Valid()
      reads this
    {
      WellFormed(Fs(files, dirs))
    }

    function State(): Fs
      reads this
    {
      Fs(files, dirs)
    }

    constructor (root: Path, initial: Fs)
      requires WellFormed(initial)
      ensures this.root == root && State() == initial && Valid()
    {
      this.root := root;
      files := initial.files;
      dirs := initial.dirs;
    }

    /** `read_file(path)`. */
    method ReadFile(path: string) returns (r: ReadReply)
      requires Valid()
      ensures r == Read(root, State(), path)
    {
      var safe := SafePath(root, path);
      if safe.Raised? {
        return ReadErr(safe.exception);
      }
      var p := safe.value;
      if p !in files && p !in dirs {
        return ReadErr("not_found");
      }
      if p in dirs {
        return ReadErr(IsADirectory(p));
      }
      return ReadOk(files[p]);
    }

    /** `write_file(path, content, create_dirs)`. */
    method WriteFile(path: string, content: string, createDirs: bool) returns (r: WriteReply)
      requires Valid()
      modifies this
      ensures Valid()
      ensures (r, State()) == Write(root, old(State()), path, content, createDirs)
    {
      WriteWellFormed(root, State(), path, content, createDirs);
      var safe := SafePath(root, path);
      if safe.Raised? {
        return WriteErr(safe.exception);
      }
      var p := safe.value;
      if createDirs {
        var made := Mkdir(State(), Parent(p));
        if made.Raised? {
          return WriteErr(made.exception);
        }
        dirs := made.value.dirs;
      }
      var written := WriteText(State(), p, content);
      if written.Raised? {
        return WriteErr(written.exception);
      }
      files := written.value.files;
      r := WriteOk;
    }
  }
}
