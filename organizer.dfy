/**
 * `FileOrganizer` (src/tidydir/organizer.py): the object that scans a source
 * directory, decides for every regular file where it goes, and moves it
 * there. The disk is a value handed to each operation; the two lists the
 * organizer keeps, `conflicts` and `errors`, are objects it updates in
 * place and hands out in its result.
 */
module Organizer {
  import opened Common
  import opened Paths
  import opened Categories
  import opened Classifier
  import opened FileSystem
  import opened Resolver
  import opened Plans
  import opened Execution
  import opened Lists

  /** `OrganizeResult`: the counts and the two lists, which are the
      organizer's own list objects after a run that moved something. */
  datatype OrganizeResult = OrganizeResult(
    movedCount: nat,
    totalCount: nat,
    errors: List<(Path, Failure)>,
    conflicts: List<(Path, Path)>)

  /** How `execute` ends: with a result, or by letting an `OSError` from
      `mkdir` propagate. */
  datatype ExecuteOutcome = Finished(result: OrganizeResult) | Raised(failure: Failure)

  /** `t` occurs in `s` as a contiguous piece. */
  predicate Contains(s: string, t: string) {
    exists i :: 0 <= i <= |s| && t <= s[i..]
  }

  /** The entries of a walk that are regular files, in the walk's order
      (`[item for item in walk if item.is_file()]`). */
  function RegularFiles(d: Disk, walk: seq<Path>): (files: seq<Path>)
    ensures |files| <= |walk|
    ensures forall p :: p in files <==> p in walk && p in d.files
  {
    if walk == [] then []
    else
      var last := walk[|walk| - 1];
      RegularFiles(d, walk[..|walk| - 1]) + (if last in d.files then [last] else [])
  }

  /** Filtering keeps entries apart: a walk without repeats gives files
      without repeats. */
  lemma {:induction false} RegularFilesDistinct(d: Disk, walk: seq<Path>)
    requires forall i, j :: 0 <= i < j < |walk| ==> walk[i] != walk[j]
    ensures var files := RegularFiles(d, walk);
            forall i, j :: 0 <= i < j < |files| ==> files[i] != files[j]
    decreases |walk|
  {
    if walk != [] {
      var front := walk[..|walk| - 1];
      RegularFilesDistinct(d, front);
      var last := walk[|walk| - 1];
      assert last !in front;
      assert last !in RegularFiles(d, front);
    }
  }

  /** Only the first issue message of `check_permissions` says "does not
      exist". */
  lemma MissingSaysSo(s: string)
    ensures Contains("Source directory does not exist: " + s, "does not exist")
  {
    var missing := "Source directory does not exist: " + s;
    assert missing[17..31] == "does not exist";
    assert "does not exist" <= missing[17..];
  }

  /** The four issue messages of `check_permissions` differ from each
      other whatever paths they render. */
  lemma IssuesDiffer(s: string, t: string)
    ensures var missing := "Source directory does not exist: " + s;
            var m1 := "No read permission for source: " + s;
            var m2 := "No write permission for target: " + t;
            var m3 := "No write permission to create target: " + t;
            && missing != m1 && missing != m2 && missing != m3
            && m1 != m2 && m1 != m3 && m2 != m3
  {
    var missing := "Source directory does not exist: " + s;
    var m1 := "No read permission for source: " + s;
    var m2 := "No write permission for target: " + t;
    var m3 := "No write permission to create target: " + t;
    assert missing[0] == 'S' && m1[0] == 'N' && m2[0] == 'N' && m3[0] == 'N';
    assert m1[3] == 'r' && m2[3] == 'w' && m3[3] == 'w';
    assert m2[20] == 'f' && m3[20] == 't';
  }

  class FileOrganizer {
    const sourceDir: Path
    const targetDir: Path
    const includeSubdirs: bool
    /** `old_files_cutoff`, in seconds. */
    const cutoff: int
    /** `ext_to_category`. */
    const extToCategory: ExtensionMap
    const conflicts: List<(Path, Path)>
    const errors: List<(Path, Failure)>

    /** `__init__`: the target defaults to the source; the cutoff lies
        `oldFilesDays` days before `now`; the extension map is built from
        the category table, which the program always takes to be
        `CATEGORY_EXTENSIONS` (`Table()`); both lists start empty. */
    constructor(table: seq<Entry>, source: Path, target: Option<Path>, includeSubdirs: bool, oldFilesDays: int, now: int)
      ensures sourceDir == source
      ensures targetDir == if target.Some? then target.value else source
      ensures this.includeSubdirs == includeSubdirs
      ensures cutoff == Cutoff(now, oldFilesDays)
      ensures extToCategory == ExtensionMapOf(table)
      ensures fresh(conflicts) && fresh(errors) && conflicts.elems == [] && errors.elems == []
    {
      var extMap := BuildExtensionMap(table);
      sourceDir := source;
      targetDir := if target.Some? then target.value else source;
      this.includeSubdirs := includeSubdirs;
      cutoff := Cutoff(now, oldFilesDays);
      extToCategory := extMap;
      conflicts := new List();
      errors := new List();
    }

    /** `check_permissions`: at most one issue about the source and one
        about the target, and none exactly when the source is readable and
        the target (or, when it does not exist yet, its parent) is
        writable. */
    function CheckPermissions(d: Disk): (issues: seq<string>)
      ensures |issues| <= 2
      ensures issues == [] <==>
                && CanRead(d, sourceDir)
                && (if Exists(d, targetDir) then CanWrite(d, targetDir) else CanWrite(d, Parent(targetDir)))
    {
      var sourceIssues :=
        if !Exists(d, sourceDir) then ["Source directory does not exist: " + Render(sourceDir)]
        else if !CanRead(d, sourceDir) then ["No read permission for source: " + Render(sourceDir)]
        else [];
      var targetIssues :=
        if Exists(d, targetDir) then
          (if !CanWrite(d, targetDir) then ["No write permission for target: " + Render(targetDir)] else [])
        else if !CanWrite(d, Parent(targetDir)) then ["No write permission to create target: " + Render(targetDir)]
        else [];
      sourceIssues + targetIssues
    }

    /** A missing source is reported first, with a message saying it does
        not exist; the read permission of the source is only questioned
        when the source exists; and the target's own permission is only
        questioned when the target exists. */
    lemma CheckPermissionsCases(d: Disk)
      ensures !Exists(d, sourceDir) ==>
                CheckPermissions(d) != [] && Contains(CheckPermissions(d)[0], "does not exist")
      ensures "No read permission for source: " + Render(sourceDir) in CheckPermissions(d) <==>
                Exists(d, sourceDir) && !CanRead(d, sourceDir)
      ensures "No write permission for target: " + Render(targetDir) in CheckPermissions(d) <==>
                Exists(d, targetDir) && !CanWrite(d, targetDir)
      ensures "No write permission to create target: " + Render(targetDir) in CheckPermissions(d) <==>
                !Exists(d, targetDir) && !CanWrite(d, Parent(targetDir))
    {
      MissingSaysSo(Render(sourceDir));
      IssuesDiffer(Render(sourceDir), Render(targetDir));
    }

    /** `get_files_to_organize`: the regular files among the entries of the
        walk (`iterdir()`, or `rglob("*")` with subdirectories included); a
        walk that raises yields no files. */
    function GetFilesToOrganize(d: Disk, walk: Option<seq<Path>>): (files: seq<Path>)
      ensures walk.None? ==> files == []
      ensures walk.Some? ==> forall p :: p in files <==> p in walk.value && p in d.files
    {
      match walk
      case None => []
      case Some(w) => RegularFiles(d, w)
    }

    /** With a walk that behaves as the operating system's, the files to
        organise are exactly the regular files in scope of the source
        directory, each listed once. */
    lemma FilesToOrganizeAreInScope(d: Disk, w: seq<Path>)
      requires IsWalk(d, sourceDir, includeSubdirs, w)
      ensures var files := GetFilesToOrganize(d, Some(w));
              && (forall p :: p in files <==> p in d.files && InScope(sourceDir, includeSubdirs, p))
              && (forall i, j :: 0 <= i < j < |files| ==> files[i] != files[j])
    {
      RegularFilesDistinct(d, w);
      assert GetFilesToOrganize(d, Some(w)) == RegularFiles(d, w);
      var files := GetFilesToOrganize(d, Some(w));
      forall p | p in d.files && InScope(sourceDir, includeSubdirs, p)
        ensures p in files
      {
        assert Exists(d, p);
      }
    }

    /** The directory a file goes to. */
    function BaseFor(d: Disk, file: Path, date: string): Path {
      BaseDir(targetDir, CategoryOf(extToCategory, file), IsOld(cutoff, Stat(d, file)), date)
    }

    /** The operation `preview` builds for a file, with `date` the archive
        date read by its `get_target_path` call. */
    ghost function OperationFor(d: Disk, file: Path, date: string): FileOperation {
      var category := CategoryOf(extToCategory, file);
      var isOld := IsOld(cutoff, Stat(d, file));
      FileOperation(file, TargetPath(d, BaseDir(targetDir, category, isOld, date), Name(file)), category, isOld)
    }

    /** The operation moves the file to a path not on disk, directly in the
        directory `BaseFor` chooses. */
    lemma OperationForFacts(d: Disk, file: Path, date: string)
      ensures var op := OperationFor(d, file, date);
              op.source == file && !Exists(d, op.target) && Parent(op.target) == BaseFor(d, file, date)
    {
      TargetPathParent(d, BaseFor(d, file, date), Name(file));
    }

    /** The operations for a list of files, in order; the i-th call of
        `get_target_path` reads the archive date `dateOf(i)`. */
    ghost function Operations(d: Disk, files: seq<Path>, dateOf: nat -> string): (ops: seq<FileOperation>)
      ensures |ops| == |files|
    {
      if files == [] then []
      else
        var n := |files| - 1;
        Operations(d, files[..n], dateOf) + [OperationFor(d, files[n], dateOf(n))]
    }

    /** The operations take the files as their sources, in order. */
    lemma {:induction false} OperationsSources(d: Disk, files: seq<Path>, dateOf: nat -> string)
      ensures Sources(Operations(d, files, dateOf)) == files
      decreases |files|
    {
      if files != [] {
        var n := |files| - 1;
        var front := Operations(d, files[..n], dateOf);
        var op := OperationFor(d, files[n], dateOf(n));
        OperationsSources(d, files[..n], dateOf);
        OperationForFacts(d, files[n], dateOf(n));
        assert Operations(d, files, dateOf) == front + [op];
        SourcesAppend(front, op);
        FrontLast(files);
      }
    }

    /** Each operation moves one of the files to a path that is not on
        disk. */
    lemma {:induction false} OperationsFacts(d: Disk, files: seq<Path>, dateOf: nat -> string)
      ensures forall op :: op in Operations(d, files, dateOf) ==> op.source in files && !Exists(d, op.target)
      decreases |files|
    {
      if files != [] {
        var n := |files| - 1;
        var front := Operations(d, files[..n], dateOf);
        var op := OperationFor(d, files[n], dateOf(n));
        OperationsFacts(d, files[..n], dateOf);
        OperationForFacts(d, files[n], dateOf(n));
        assert Operations(d, files, dateOf) == front + [op];
      }
    }

    lemma OperationsSnoc(d: Disk, files: seq<Path>, dateOf: nat -> string, i: nat)
      requires i < |files|
      ensures Operations(d, files[..i + 1], dateOf) == Operations(d, files[..i], dateOf) + [OperationFor(d, files[i], dateOf(i))]
    {
      assert files[..i + 1][..i] == files[..i];
    }

    /** The conflicts `preview` records for a list of files: one entry per
        file whose natural target is taken, in order. */
    ghost function ConflictsOf(d: Disk, files: seq<Path>, dateOf: nat -> string): seq<(Path, Path)> {
      if files == [] then []
      else
        var n := |files| - 1;
        ConflictsOf(d, files[..n], dateOf) + ConflictFor(d, files[n], dateOf(n))
    }

    /** The conflict recorded for one file, if any. */
    ghost function ConflictFor(d: Disk, file: Path, date: string): seq<(Path, Path)> {
      if Conflicts(d, BaseFor(d, file, date), Name(file)) then [(file, OperationFor(d, file, date).target)] else []
    }

    lemma ConflictsOfSnoc(d: Disk, files: seq<Path>, dateOf: nat -> string, i: nat)
      requires i < |files|
      ensures ConflictsOf(d, files[..i + 1], dateOf) == ConflictsOf(d, files[..i], dateOf) + ConflictFor(d, files[i], dateOf(i))
    {
      assert files[..i + 1][..i] == files[..i];
    }

    /** `get_target_path`: the natural target when it is free; otherwise
        the counter runs from 1 until `stem_counter` + suffix is free, and
        exactly one conflict is recorded. */
    method GetTargetPath(d: Disk, file: Path, category: Category, isOld: bool, date: string) returns (t: Path)
      modifies conflicts
      ensures t == TargetPath(d, BaseDir(targetDir, category, isOld, date), Name(file))
      ensures Parent(t) == BaseDir(targetDir, category, isOld, date) && !Exists(d, t)
      ensures conflicts.elems == old(conflicts.elems)
                + if Conflicts(d, BaseDir(targetDir, category, isOld, date), Name(file)) then [(file, t)] else []
    {
      var base := BaseDir(targetDir, category, isOld, date);
      var name := Name(file);
      t := base + [name];
      if Exists(d, t) {
        var stem := Stem(name);
        var suffix := Suffix(name);
        var counter := 1;
        ghost var free := FirstFree(d, base, name, 1);
        while Exists(d, t)
          invariant 1 <= counter <= free + 1
          invariant t == Candidate(base, name, counter - 1)
          invariant counter == 1 ==> Exists(d, t)
          decreases free + 1 - counter
        {
          t := base + [stem + "_" + Text.Decimal(counter) + suffix];
          counter := counter + 1;
        }
        conflicts.Append((file, t));
      }
      TargetPathParent(d, base, name);
    }

    /** `preview`: clears the conflicts, then for each file in turn decides
        its category, its age and its target and files the operation under
        the target's directory. Nothing on disk changes. */
    method Preview(d: Disk, walk: Option<seq<Path>>, dateOf: nat -> string) returns (plan: Plan)
      modifies conflicts
      ensures plan == PlanOf(Operations(d, GetFilesToOrganize(d, walk), dateOf))
      ensures conflicts.elems == ConflictsOf(d, GetFilesToOrganize(d, walk), dateOf)
    {
      var files := GetFilesToOrganize(d, walk);
      plan := EmptyPlan;
      conflicts.Clear();
      var i := 0;
      while i < |files|
        invariant 0 <= i <= |files|
        invariant plan == PlanOf(Operations(d, files[..i], dateOf))
        invariant conflicts.elems == ConflictsOf(d, files[..i], dateOf)
      {
        var file := files[i];
        var category := CategoryOf(extToCategory, file);
        var isOld := IsOld(cutoff, Stat(d, file));
        var target := GetTargetPath(d, file, category, isOld, dateOf(i));
        var op := FileOperation(file, target, category, isOld);
        OperationsSnoc(d, files, dateOf, i);
        ConflictsOfSnoc(d, files, dateOf, i);
        PlanOfAppend(Operations(d, files[..i], dateOf), op);
        plan := Add(plan, op);
        i := i + 1;
      }
      assert files[..i] == files;
    }
 
    /** The directory loop of `execute`: `mkdir(parents=True,
        exist_ok=True)` for every key of the plan in order, stopping at the
        first failure, which the caller raises. */
    method CreateDirectories(d: Disk, dirs: seq<Path>) returns (disk: Disk, failure: Option<Failure>)
      requires Valid(d)
      ensures Prepared(disk, failure) == MakeAll(d, dirs)
    {
      disk := d;
      var i := 0;
      while i < |dirs|
        invariant 0 <= i <= |dirs|
        invariant MakeAll(d, dirs[..i]) == Prepared(disk, None)
      {
        TakeTake(dirs, i);
        match MakeDirs(disk, dirs[i]) {
          case Err(e) =>
            MakeAllStops(d, dirs, i + 1);
            return disk, Some(e);
          case Ok(d1) =>
            disk := d1;
        }
        i := i + 1;
      }
      TakeAll(dirs);
      failure := None;
    }

    /** The move loop of `execute`: the errors are cleared, then every
        operation is attempted, group after group in plan order. */
    method MoveAll(prepared: Disk, plan: Plan, refused: set<Path>) returns (disk: Disk, moved: nat)
      requires Valid(prepared)
      modifies errors
      ensures Progress(disk, moved, errors.elems) == RunMoves(prepared, Schedule(plan), refused)
    {
      disk := prepared;
      errors.Clear();
      moved := 0;
      var g := 0;
      while g < |plan.keys|
        invariant 0 <= g <= |plan.keys|
        invariant Progress(disk, moved, errors.elems) == RunMoves(prepared, ScheduleOf(plan.keys[..g], plan.groups), refused)
      {
        disk, moved := MoveGroup(prepared, ScheduleOf(plan.keys[..g], plan.groups), GroupOf(plan.groups, plan.keys[g]), refused, disk, moved);
        ScheduleOfSnoc(plan.keys, plan.groups, g);
        g := g + 1;
      }
      TakeAll(plan.keys);
    }

    /** The inner loop of the move loop, over one group: every operation of
        the group is attempted in turn. */
    method MoveGroup(prepared: Disk, ghost done: seq<FileOperation>, group: seq<FileOperation>, refused: set<Path>,
                     disk0: Disk, moved0: nat)
      returns (disk: Disk, moved: nat)
      requires Valid(prepared)
      requires Progress(disk0, moved0, errors.elems) == RunMoves(prepared, done, refused)
      modifies errors
      ensures Progress(disk, moved, errors.elems) == RunMoves(prepared, done + group, refused)
    {
      disk, moved := disk0, moved0;
      AppendTakeNone(done, group);
      var j := 0;
      while j < |group|
        invariant 0 <= j <= |group|
        invariant Progress(disk, moved, errors.elems) == RunMoves(prepared, done + group[..j], refused)
      {
        AppendTakeSnoc(done, group, j);
        RunMovesSnoc(prepared, done + group[..j], group[j], refused);
        disk, moved := MoveOne(disk, moved, group[j], refused);
        j := j + 1;
      }
      TakeAll(group);
    }

    /** One pass of the inner loop: a move that succeeds is counted, one
        that raises is recorded with its source. */
    method MoveOne(disk0: Disk, moved0: nat, op: FileOperation, refused: set<Path>) returns (disk: Disk, moved: nat)
      requires Valid(disk0)
      modifies errors
      ensures Progress(disk, moved, errors.elems) == Step(Progress(disk0, moved0, old(errors.elems)), op, refused)
    {
      match Move(disk0, op.source, op.target, refused) {
        case Ok(d1) =>
          disk, moved := d1, moved0 + 1;
        case Err(e) =>
          disk, moved := disk0, moved0;
          errors.Append((op.source, e));
      }
    }

    /** `execute`: runs `preview` again; an empty plan gives a zero result
        with lists of its own. Otherwise every directory of the plan is
        created, and a `mkdir` failure propagates; then the files are moved
        and the result holds the organizer's own two lists. */
    method Execute(d: Disk, walk: Option<seq<Path>>, dateOf: nat -> string, refused: set<Path>)
      returns (outcome: ExecuteOutcome, after: Disk)
      requires Valid(d)
      modifies conflicts, errors
      ensures conflicts.elems == ConflictsOf(d, GetFilesToOrganize(d, walk), dateOf)
      ensures var plan := PlanOf(Operations(d, GetFilesToOrganize(d, walk), dateOf));
              plan.keys == [] ==>
                && outcome.Finished? && outcome.result.movedCount == 0 && outcome.result.totalCount == 0
                && fresh(outcome.result.errors) && fresh(outcome.result.conflicts)
                && outcome.result.errors.elems == [] && outcome.result.conflicts.elems == []
                && after == d && errors.elems == old(errors.elems)
      ensures var plan := PlanOf(Operations(d, GetFilesToOrganize(d, walk), dateOf));
              var prepared := MakeAll(d, plan.keys);
              plan.keys != [] && prepared.failure.Some? ==>
                outcome == Raised(prepared.failure.value) && after == prepared.disk && errors.elems == old(errors.elems)
      ensures var plan := PlanOf(Operations(d, GetFilesToOrganize(d, walk), dateOf));
              var prepared := MakeAll(d, plan.keys);
              var run := RunMoves(prepared.disk, Schedule(plan), refused);
              plan.keys != [] && prepared.failure.None? ==>
                && outcome == Finished(OrganizeResult(run.moved, Total(plan), errors, conflicts))
                && after == run.disk && errors.elems == run.errors
    {
      var plan := Preview(d, walk, dateOf);
      if plan.keys == [] {
        var noErrors := new List();
        var noConflicts := new List();
        return Finished(OrganizeResult(0, 0, noErrors, noConflicts)), d;
      }
      var prepared, failure := CreateDirectories(d, plan.keys);
      if failure.Some? {
        return Raised(failure.value), prepared;
      }
      var disk, moved := MoveAll(prepared, plan, refused);
      return Finished(OrganizeResult(moved, Total(plan), errors, conflicts)), disk;
    }
 
    /** `preview` finds nothing to do exactly when there are no files, and
        otherwise files every file once: the total is the number of files. */
    lemma PreviewCounts(d: Disk, walk: Option<seq<Path>>, dateOf: nat -> string)
      ensures var files := GetFilesToOrganize(d, walk);
              var plan := PlanOf(Operations(d, files, dateOf));
              && (plan.keys == [] <==> files == [])
              && Total(plan) == |files|
              && |Schedule(plan)| == |files|
    {
      var ops := Operations(d, GetFilesToOrganize(d, walk), dateOf);
      PlanOfEmpty(ops);
      ScheduleIsPermutation(ops);
      assert |multiset(Schedule(PlanOf(ops)))| == |multiset(ops)|;
    }

    /** Walked in plan order, the operations of a plan built on a disk form
        an independent batch on that disk: each file is moved once, from
        where it is, to a path that is not a file yet. */
    lemma ScheduleIndependent(d: Disk, w: seq<Path>, dateOf: nat -> string)
      requires IsWalk(d, sourceDir, includeSubdirs, w)
      ensures Independent(d, Schedule(PlanOf(Operations(d, GetFilesToOrganize(d, Some(w)), dateOf))))
    {
      var files := GetFilesToOrganize(d, Some(w));
      FilesToOrganizeAreInScope(d, w);
      assert Distinct(files);
      var ops := Operations(d, files, dateOf);
      OperationsSources(d, files, dateOf);
      OperationsFacts(d, files, dateOf);
      IndependentOf(d, ops);
      ScheduleIsPermutation(ops);
      IndependentPermutation(d, ops, Schedule(PlanOf(ops)));
    }

    /** After the directory loop succeeds, every directory of the plan
        exists, and the move loop keeps them: all parents are created before
        any file is moved. */
    lemma ExecuteCreatesDirectories(d: Disk, walk: Option<seq<Path>>, dateOf: nat -> string, refused: set<Path>)
      requires Valid(d)
      ensures var plan := PlanOf(Operations(d, GetFilesToOrganize(d, walk), dateOf));
              var prepared := MakeAll(d, plan.keys);
              prepared.failure.None? ==>
                && (forall k :: k in plan.keys ==> k in prepared.disk.dirs)
                && RunMoves(prepared.disk, Schedule(plan), refused).disk.dirs == prepared.disk.dirs
    {
    }

    /** Every file found is either moved or reported: `moved + len(errors)
        == total`, the total being the number of files found. */
    lemma ExecuteCounts(d: Disk, walk: Option<seq<Path>>, dateOf: nat -> string, refused: set<Path>)
      requires Valid(d)
      ensures var files := GetFilesToOrganize(d, walk);
              var plan := PlanOf(Operations(d, files, dateOf));
              var prepared := MakeAll(d, plan.keys);
              var run := RunMoves(prepared.disk, Schedule(plan), refused);
              run.moved + |run.errors| == Total(plan) == |files|
    {
      PreviewCounts(d, walk, dateOf);
    }

    /** A move that fails does not stop the others and leaves its file in
        place: every reported file is one of the files found and is still
        on disk after the run. */
    lemma ExecuteKeepsFailedSources(d: Disk, w: seq<Path>, dateOf: nat -> string, refused: set<Path>)
      requires Valid(d) && IsWalk(d, sourceDir, includeSubdirs, w)
      ensures var files := GetFilesToOrganize(d, Some(w));
              var plan := PlanOf(Operations(d, files, dateOf));
              var prepared := MakeAll(d, plan.keys);
              var run := RunMoves(prepared.disk, Schedule(plan), refused);
              forall e :: e in run.errors ==> e.0 in files && e.0 in run.disk.files
    {
      var files := GetFilesToOrganize(d, Some(w));
      var ops := Operations(d, files, dateOf);
      var plan := PlanOf(ops);
      var sched := Schedule(plan);
      var prepared := MakeAll(d, plan.keys);
      ScheduleIndependent(d, w, dateOf);
      assert Independent(prepared.disk, sched);
      TakeAll(sched);
      FailedSourcesStay(prepared.disk, sched, |sched|, refused);
      ErrorsNameSources(prepared.disk, sched, |sched|, refused);
      ScheduleIsPermutation(ops);
      OperationsFacts(d, files, dateOf);
      forall e | e in RunMoves(prepared.disk, sched, refused).errors
        ensures e.0 in files
      {
        var i :| 0 <= i < |sched| && e.0 == sched[i].source;
        assert sched[i] in multiset(ops);
      }
    }
 
    /** Probing consults only the disk, not the targets already chosen in
        the same plan: two different files of the same name bound for the
        same directory get the same target, and when both moves succeed the
        second replaces the first, so one file is lost. */
    lemma SameNameCollision(d: Disk, a: Path, b: Path, date: string, refused: set<Path>)
      requires Valid(d) && a in d.files && b in d.files && a != b
      requires Name(a) == Name(b) && BaseFor(d, a, date) == BaseFor(d, b, date)
      requires RunMoves(d, [OperationFor(d, a, date), OperationFor(d, b, date)], refused).moved == 2
      ensures OperationFor(d, a, date).target == OperationFor(d, b, date).target
      ensures |RunMoves(d, [OperationFor(d, a, date), OperationFor(d, b, date)], refused).disk.files| == |d.files| - 1
    {
      var opA := OperationFor(d, a, date);
      var opB := OperationFor(d, b, date);
      SameBaseSameTarget(d, a, b, date);
      OperationForFacts(d, a, date);
      OperationForFacts(d, b, date);
      IndependentPair(d, opA, opB);
      CollisionLosesFile(d, opA, opB, refused);
    }

    /** Files of the same name bound for the same directory are probed
        alike. */
    lemma SameBaseSameTarget(d: Disk, a: Path, b: Path, date: string)
      requires Name(a) == Name(b) && BaseFor(d, a, date) == BaseFor(d, b, date)
      ensures OperationFor(d, a, date).target == OperationFor(d, b, date).target
    {
    }

    /** With the target inside the source and subdirectories included, a
        file already organised as `Images/x.jpg` is found again, finds its
        own path taken, and is renamed to `Images/x_1.jpg`. */
    lemma AlreadyOrganizedIsRenamed(d: Disk, w: seq<Path>, date: string)
      requires targetDir == sourceDir && includeSubdirs
      requires ".jpg" in extToCategory && extToCategory[".jpg"] == Images
      requires sourceDir + ["Images", "x.jpg"] in d.files
      requires !IsOld(cutoff, Stat(d, sourceDir + ["Images", "x.jpg"]))
      requires !Exists(d, sourceDir + ["Images", "x_1.jpg"])
      requires IsWalk(d, sourceDir, includeSubdirs, w)
      ensures sourceDir + ["Images", "x.jpg"] in GetFilesToOrganize(d, Some(w))
      ensures OperationFor(d, sourceDir + ["Images", "x.jpg"], date).target == sourceDir + ["Images", "x_1.jpg"]
    {
      var p := sourceDir + ["Images", "x.jpg"];
      var base := sourceDir + ["Images"];
      assert p[..|sourceDir|] == sourceDir;
      assert InScope(sourceDir, includeSubdirs, p);
      FilesToOrganizeAreInScope(d, w);
      XJpgParts();
      assert Name(p) == "x.jpg";
      assert CategoryOf(extToCategory, p) == Images;
      assert BaseFor(d, p, date) == base;
      assert Candidate(base, "x.jpg", 0) == p;
      assert Candidate(base, "x.jpg", 1) == sourceDir + ["Images", "x_1.jpg"];
      assert FirstFree(d, base, "x.jpg", 1) == 1;
    }
  }
}
