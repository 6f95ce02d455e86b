/**
 * The file system as the organizer sees it: which paths are directories and
 * which are regular files, what `os.access` grants, which modification
 * times `stat` can read, and the three operations that change it or look
 * at it: `mkdir(parents=True, exist_ok=True)`, `shutil.move` and a
 * directory walk (`iterdir()` or `rglob("*")`).
 */
module FileSystem {
  import opened Common
  import opened Paths

  datatype Disk = Disk(
    dirs: set<Path>,          // existing directories
    files: set<Path>,         // existing regular files
    readable: set<Path>,      // paths for which os.access(path, R_OK) holds
    writable: set<Path>,      // paths for which os.access(path, W_OK) holds
    mtimes: map<Path, int>)   // st_mtime, where stat can read it

  /** A disk in which the root is a directory, nothing is both a file and a
      directory, and everything but the root lies in an existing directory. */
  predicate Valid(d: Disk) {
    && [] in d.dirs
    && d.dirs !! d.files
    && (forall p :: p in d.dirs && p != [] ==> Parent(p) in d.dirs)
    && (forall p :: p in d.files ==> p != [] && Parent(p) in d.dirs)
  }

  /** `path.exists()`. */
  predicate Exists(d: Disk, p: Path) {
    p in d.dirs || p in d.files
  }

  /** `os.access(path, os.R_OK)`: false for a path that does not exist. */
  predicate CanRead(d: Disk, p: Path) {
    Exists(d, p) && p in d.readable
  }

  /** `os.access(path, os.W_OK)`: false for a path that does not exist. */
  predicate CanWrite(d: Disk, p: Path) {
    Exists(d, p) && p in d.writable
  }

  /** The `OSError` subclasses the model distinguishes. */
  datatype Failure =
    | NotFound          // FileNotFoundError
    | NotADirectory     // NotADirectoryError
    | AlreadyExists     // FileExistsError
    | PermissionDenied  // PermissionError
    | TargetIsDirectory // the target of a move is an existing directory
    | Refused           // any other failure the operating system reports

  /** `path.stat().st_mtime`: None when `stat` raises. */
  function Stat(d: Disk, p: Path): (r: Option<int>)
    ensures r.Some? <==> p in d.mtimes
  {
    if p in d.mtimes then Some(d.mtimes[p]) else None
  }

  /** `q` is `p` or one of its ancestors. */
  predicate IsPrefix(q: Path, p: Path) {
    |q| <= |p| && p[..|q|] == q
  }

  /** `Path(p).mkdir(parents=True, exist_ok=True)`: an existing directory is
      accepted as it is; otherwise the missing ancestors are created first,
      each needing write permission on its parent. A file in the way raises
      FileExistsError when it is `p` itself and NotADirectoryError when it is
      an ancestor. A created directory is readable and writable. */
  function MakeDirs(d: Disk, p: Path): (r: Result<Disk, Failure>)
    requires Valid(d)
    ensures r.Ok? ==> Valid(r.value) && p in r.value.dirs
    ensures r.Ok? ==> r.value.files == d.files && r.value.mtimes == d.mtimes
    ensures r.Ok? ==> d.dirs <= r.value.dirs
                      && forall q :: q in r.value.dirs && q !in d.dirs ==> IsPrefix(q, p)
    ensures p in d.dirs ==> r == Ok(d)
    ensures p in d.files <==> r == Err(AlreadyExists)
    decreases |p|
  {
    if p in d.dirs then Ok(d)
    else if p in d.files then Err(AlreadyExists)
    else if Parent(p) in d.files then Err(NotADirectory)
    else
      match MakeDirs(d, Parent(p))
      case Err(e) => Err(e)
      case Ok(d1) =>
        if CanWrite(d1, Parent(p)) then
          Ok(d1.(dirs := d1.dirs + {p}, readable := d1.readable + {p}, writable := d1.writable + {p}))
        else Err(PermissionDenied)
  }

  /** `shutil.move(src, dst)` for a regular file, as the rename it performs
      when `os.rename` succeeds: it needs the source to be a file, the
      target's directory to exist and write permission on both directories.
      A file already at the target is replaced, as `os.rename` does, and the
      moved file keeps its modification time. A directory at the target, and
      the copy-then-unlink fallback after a refused rename, are not
      modelled: both are reported as errors that leave the disk as it was. */
  function Move(d: Disk, src: Path, dst: Path, refused: set<Path>): (r: Result<Disk, Failure>)
    requires Valid(d)
    ensures r.Ok? ==> Valid(r.value)
    ensures r.Ok? <==> src in d.files && dst != [] && Parent(dst) in d.dirs && dst !in d.dirs
                       && CanWrite(d, Parent(src)) && CanWrite(d, Parent(dst)) && src !in refused
    ensures r.Ok? ==> r.value.files == d.files - {src} + {dst} && r.value.dirs == d.dirs
  {
    if src !in d.files then Err(NotFound)
    else if dst == [] || Parent(dst) !in d.dirs then Err(NotFound)
    else if dst in d.dirs then Err(TargetIsDirectory)
    else if !CanWrite(d, Parent(src)) || !CanWrite(d, Parent(dst)) then Err(PermissionDenied)
    else if src in refused then Err(Refused)
    else
      var times := if src in d.mtimes then (d.mtimes - {src})[dst := d.mtimes[src]] else d.mtimes - {src, dst};
      Ok(d.(files := d.files - {src} + {dst}, mtimes := times))
  }

  /** A successful move keeps the number of files when the target was free,
      and loses one file when it replaced another. */
  lemma MoveCount(d: Disk, src: Path, dst: Path, refused: set<Path>)
    requires Valid(d)
    requires Move(d, src, dst, refused).Ok?
    ensures dst !in d.files || src == dst ==> |Move(d, src, dst, refused).value.files| == |d.files|
    ensures dst in d.files && src != dst ==> |Move(d, src, dst, refused).value.files| == |d.files| - 1
  {
    RenameCount(d.files, src, dst);
  }

  lemma RenameCount(files: set<Path>, src: Path, dst: Path)
    requires src in files
    ensures dst !in files || src == dst ==> |files - {src} + {dst}| == |files|
    ensures dst in files && src != dst ==> |files - {src} + {dst}| == |files| - 1
  {
    var f := files - {src};
    assert |f| == |files| - 1;
    if src == dst {
      assert f + {dst} == files;
    } else if dst in files {
      assert f + {dst} == f;
    }
  }

  /** The entries a walk of `dir` reaches: its direct children for
      `iterdir()`, everything below it for `rglob("*")`. */
  predicate InScope(dir: Path, recursive: bool, p: Path) {
    IsBelow(p, dir) && (recursive || |p| == |dir| + 1)
  }

  /** `walk` is what the operating system yields for a walk of `dir`: every
      existing entry in scope exactly once, in an order of its choosing. */
  ghost predicate IsWalk(d: Disk, dir: Path, recursive: bool, walk: seq<Path>) {
    && (forall i, j :: 0 <= i < j < |walk| ==> walk[i] != walk[j])
    && (forall p :: p in walk <==> Exists(d, p) && InScope(dir, recursive, p))
  }
}
