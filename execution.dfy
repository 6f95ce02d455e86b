/**
 * The two phases of `execute` (src/tidydir/organizer.py) after the plan is
 * built, as functions of the disk: creating every target directory, where
 * the first failure propagates out of `execute`; then moving the files one
 * at a time, where a failure is recorded and the batch goes on.
 */
module Execution {
  import opened Common
  import opened Paths
  import opened FileSystem
  import opened Plans

  /** The disk after the directory loop, and the error that stopped it. */
  datatype Prepared = Prepared(disk: Disk, failure: Option<Failure>)

  /** `for parent_dir in operations: Path(parent_dir).mkdir(parents=True,
      exist_ok=True)`: the directories are created in order; the first
      failure ends the loop, leaving what was already created. */
  function MakeAll(d: Disk, dirs: seq<Path>): (r: Prepared)
    requires Valid(d)
    ensures Valid(r.disk)
    ensures r.disk.files == d.files && d.dirs <= r.disk.dirs
    ensures r.failure.None? ==> forall p :: p in dirs ==> p in r.disk.dirs
  {
    if dirs == [] then Prepared(d, None)
    else
      var before := MakeAll(d, dirs[..|dirs| - 1]);
      if before.failure.Some? then before
      else
        match MakeDirs(before.disk, dirs[|dirs| - 1])
        case Err(e) => Prepared(before.disk, Some(e))
        case Ok(d1) => Prepared(d1, None)
  }

  /** Where the move loop stands: the disk, `moved`, and `self.errors`. */
  datatype Progress = Progress(disk: Disk, moved: nat, errors: seq<(Path, Failure)>)

  /** One pass of the move loop: `shutil.move` either succeeds, which counts
      the operation as moved, or raises, which appends `(source, error)` to
      the errors and leaves the disk as it was. */
  function Step(p: Progress, op: FileOperation, refused: set<Path>): (r: Progress)
    requires Valid(p.disk)
    ensures Valid(r.disk) && r.disk.dirs == p.disk.dirs
    ensures r.moved + |r.errors| == p.moved + |p.errors| + 1
    ensures r.moved == p.moved + 1 <==> Move(p.disk, op.source, op.target, refused).Ok?
  {
    match Move(p.disk, op.source, op.target, refused)
    case Ok(d1) => Progress(d1, p.moved + 1, p.errors)
    case Err(e) => Progress(p.disk, p.moved, p.errors + [(op.source, e)])
  }

  /** The move loop over a list of operations. Every operation is
      attempted, so moved and failed operations add up to all of them. */
  function RunMoves(d: Disk, ops: seq<FileOperation>, refused: set<Path>): (r: Progress)
    requires Valid(d)
    ensures Valid(r.disk)
    ensures r.moved + |r.errors| == |ops|
    ensures r.disk.dirs == d.dirs
  {
    if ops == [] then Progress(d, 0, [])
    else Step(RunMoves(d, ops[..|ops| - 1], refused), ops[|ops| - 1], refused)
  }

  /** A batch whose operations do not get in each other's way: the sources
      are distinct existing files and no target is a file yet. A plan built
      by `preview` on the same disk has this shape. */
  ghost predicate Independent(d: Disk, ops: seq<FileOperation>) {
    && (forall i, j :: 0 <= i < j < |ops| ==> ops[i].source != ops[j].source)
    && (forall i :: 0 <= i < |ops| ==> ops[i].source in d.files && ops[i].target !in d.files)
  }

  /** A batch whose sources are distinct existing files and whose targets
      are not files is independent. */
  lemma IndependentOf(d: Disk, ops: seq<FileOperation>)
    requires Distinct(Sources(ops))
    requires forall op :: op in ops ==> op.source in d.files && op.target !in d.files
    ensures Independent(d, ops)
  {
    forall i, j | 0 <= i < j < |ops|
      ensures ops[i].source != ops[j].source
    {
      SourcesAt(ops, i);
      SourcesAt(ops, j);
    }
  }

  /** Independence does not depend on the order of the batch. */
  lemma IndependentPermutation(d: Disk, s: seq<FileOperation>, t: seq<FileOperation>)
    requires Independent(d, s) && multiset(s) == multiset(t)
    ensures Independent(d, t)
  {
    assert Distinct(s);
    DistinctCounts(s);
    CountsDistinct(t);
    forall i | 0 <= i < |t|
      ensures t[i] in s
    {
      assert t[i] in multiset(t);
    }
    forall i, j | 0 <= i < j < |t|
      ensures t[i].source != t[j].source
    {
      assert t[i] in s && t[j] in s;
      var k :| 0 <= k < |s| && s[k] == t[i];
      var l :| 0 <= l < |s| && s[l] == t[j];
      assert k != l;
    }
  }

  /** Two moves of different existing files to paths that are not files
      form an independent batch. */
  lemma IndependentPair(d: Disk, a: FileOperation, b: FileOperation)
    requires a.source in d.files && b.source in d.files && a.source != b.source
    requires a.target !in d.files && b.target !in d.files
    ensures Independent(d, [a, b])
  {
  }

  /** No two operations share a target. */
  ghost predicate DistinctTargets(ops: seq<FileOperation>) {
    forall i, j :: 0 <= i < j < |ops| ==> ops[i].target != ops[j].target
  }

  /** Every error names the source of one of the first n operations. */
  lemma {:induction false} ErrorsNameSources(d: Disk, ops: seq<FileOperation>, n: nat, refused: set<Path>)
    requires Valid(d) && n <= |ops|
    ensures forall e :: e in RunMoves(d, ops[..n], refused).errors ==>
              exists i :: 0 <= i < n && e.0 == ops[i].source
  {
    if n > 0 {
      ErrorsNameSources(d, ops, n - 1, refused);
      assert ops[..n][..n - 1] == ops[..n - 1];
    }
  }

  /** One step keeps the failed sources and the later sources in place. */
  lemma StepKeepsSources(p: Progress, op: FileOperation, ops: seq<FileOperation>, n: nat, refused: set<Path>)
    requires Valid(p.disk) && op.source in p.disk.files
    requires forall e :: e in p.errors ==> e.0 in p.disk.files && e.0 != op.source
    requires forall i :: n <= i < |ops| ==> ops[i].source in p.disk.files && ops[i].source != op.source
    ensures forall e :: e in Step(p, op, refused).errors ==> e.0 in Step(p, op, refused).disk.files
    ensures forall i :: n <= i < |ops| ==> ops[i].source in Step(p, op, refused).disk.files
  {
  }

  /** A failed move does not stop the batch and does not lose its file:
      after the first n operations, the source of every failed operation is
      still in place, and operations still to come find their sources where
      they were. */
  lemma {:induction false} FailedSourcesStay(d: Disk, ops: seq<FileOperation>, n: nat, refused: set<Path>)
    requires Valid(d) && Independent(d, ops) && n <= |ops|
    ensures forall e :: e in RunMoves(d, ops[..n], refused).errors ==> e.0 in RunMoves(d, ops[..n], refused).disk.files
    ensures forall i :: n <= i < |ops| ==> ops[i].source in RunMoves(d, ops[..n], refused).disk.files
  {
    if n > 0 {
      var op := ops[n - 1];
      FailedSourcesStay(d, ops, n - 1, refused);
      ErrorsNameSources(d, ops, n - 1, refused);
      assert ops[..n][..n - 1] == ops[..n - 1];
      var before := RunMoves(d, ops[..n - 1], refused);
      assert RunMoves(d, ops[..n], refused) == Step(before, op, refused);
      forall e | e in before.errors
        ensures e.0 in before.disk.files && e.0 != op.source
      {
        var i :| 0 <= i < n - 1 && e.0 == ops[i].source;
        assert ops[i].source != ops[n - 1].source;
      }
      forall i | n <= i < |ops|
        ensures ops[i].source in before.disk.files && ops[i].source != op.source
      {
        assert ops[n - 1].source != ops[i].source;
      }
      StepKeepsSources(before, op, ops, n, refused);
    }
  }

  /** One step moves a file to a free target, so the count is kept, and
      later operations still find their sources present and their targets
      free. */
  lemma StepKeepsCount(p: Progress, op: FileOperation, ops: seq<FileOperation>, n: nat, refused: set<Path>)
    requires Valid(p.disk) && op.source in p.disk.files && op.target !in p.disk.files
    requires forall i :: n <= i < |ops| ==>
               && ops[i].source in p.disk.files && ops[i].target !in p.disk.files
               && ops[i].source != op.source && ops[i].target != op.target
    ensures |Step(p, op, refused).disk.files| == |p.disk.files|
    ensures forall i :: n <= i < |ops| ==>
              ops[i].source in Step(p, op, refused).disk.files && ops[i].target !in Step(p, op, refused).disk.files
  {
    if Move(p.disk, op.source, op.target, refused).Ok? {
      MoveCount(p.disk, op.source, op.target, refused);
    }
  }

  /** When no two operations share a target, the batch loses no file: the
      number of files on disk is what it was, whichever moves fail. */
  lemma {:induction false} DistinctTargetsKeepFiles(d: Disk, ops: seq<FileOperation>, n: nat, refused: set<Path>)
    requires Valid(d) && Independent(d, ops) && DistinctTargets(ops) && n <= |ops|
    ensures |RunMoves(d, ops[..n], refused).disk.files| == |d.files|
    ensures forall i :: n <= i < |ops| ==>
              ops[i].source in RunMoves(d, ops[..n], refused).disk.files
              && ops[i].target !in RunMoves(d, ops[..n], refused).disk.files
  {
    if n > 0 {
      DistinctTargetsKeepFiles(d, ops, n - 1, refused);
      assert ops[..n][..n - 1] == ops[..n - 1];
      var before := RunMoves(d, ops[..n - 1], refused);
      StepKeepsCount(before, ops[n - 1], ops, n, refused);
    }
  }

  /** Two operations that share a target: when both moves succeed, the
      second replaces the file the first one moved, and one file is lost. */
  lemma CollisionLosesFile(d: Disk, a: FileOperation, b: FileOperation, refused: set<Path>)
    requires Valid(d) && Independent(d, [a, b]) && a.target == b.target
    requires RunMoves(d, [a, b], refused).moved == 2
    ensures |RunMoves(d, [a, b], refused).disk.files| == |d.files| - 1
  {
    assert [a, b][..1] == [a] && [a][..0] == [];
    var r0 := RunMoves(d, [], refused);
    var r1 := RunMoves(d, [a], refused);
    assert r1 == Step(r0, a, refused);
    assert RunMoves(d, [a, b], refused) == Step(r1, b, refused);
    MoveCount(d, a.source, a.target, refused);
    MoveCount(r1.disk, b.source, b.target, refused);
  }

  /** One more operation is one more step of the loop. */
  lemma RunMovesSnoc(d: Disk, ops: seq<FileOperation>, op: FileOperation, refused: set<Path>)
    requires Valid(d)
    ensures RunMoves(d, ops + [op], refused) == Step(RunMoves(d, ops, refused), op, refused)
  {
    assert (ops + [op])[..|ops|] == ops;
  }

  /** Once a directory fails, the rest of the list is not attempted. */
  lemma {:induction false} MakeAllStops(d: Disk, dirs: seq<Path>, n: nat)
    requires Valid(d) && n <= |dirs| && MakeAll(d, dirs[..n]).failure.Some?
    ensures MakeAll(d, dirs) == MakeAll(d, dirs[..n])
    decreases |dirs| - n
  {
    if n < |dirs| {
      assert dirs[..n + 1][..n] == dirs[..n];
      MakeAllStops(d, dirs, n + 1);
    } else {
      assert dirs[..n] == dirs;
    }
  }
}
