/**
 * The plan `preview` builds (src/tidydir/organizer.py): a `defaultdict`
 * from a target directory to the operations that move a file into it, with
 * its keys in insertion order, and the order in which `execute` walks it.
 * The model keys the plan by the directory's list of components rather
 * than by its string rendering. The two agree when no component is empty
 * or contains '/', as for the paths the organizer builds.
 */
module Plans {
  import opened Paths
  import opened Categories

  /** `FileOperation`. */
  datatype FileOperation = FileOperation(source: Path, target: Path, category: Category, isOld: bool)

  /** The directory an operation is filed under: `str(target_path.parent)`. */
  function GroupKey(op: FileOperation): Path {
    Parent(op.target)
  }

  /** The `defaultdict(list)`: keys in insertion order, and a list per key. */
  datatype Plan = Plan(keys: seq<Path>, groups: map<Path, seq<FileOperation>>)

  /** Keys are distinct and are exactly the dictionary's keys; every list is
      non-empty (a key is only created by appending to it) and holds
      operations filed under its key. */
  predicate WellFormed(plan: Plan) {
    && (forall i, j :: 0 <= i < j < |plan.keys| ==> plan.keys[i] != plan.keys[j])
    && (forall k :: k in plan.groups ==> k in plan.keys)
    && (forall k :: k in plan.keys ==> k in plan.groups)
    && (forall k :: k in plan.groups ==> plan.groups[k] != [])
  }

  const EmptyPlan: Plan := Plan([], map[])

  /** `operations[str(target_path.parent)].append(operation)`. */
  function Add(plan: Plan, op: FileOperation): Plan {
    var k := GroupKey(op);
    if k in plan.groups then plan.(groups := plan.groups[k := plan.groups[k] + [op]])
    else Plan(plan.keys + [k], plan.groups[k := [op]])
  }

  /** The plan obtained by adding the operations one after the other. */
  function PlanOf(ops: seq<FileOperation>): Plan {
    if ops == [] then EmptyPlan else Add(PlanOf(ops[..|ops| - 1]), ops[|ops| - 1])
  }

  /** Adding the next operation of a list. */
  lemma PlanOfSnoc(ops: seq<FileOperation>, i: nat)
    requires i < |ops|
    ensures PlanOf(ops[..i + 1]) == Add(PlanOf(ops[..i]), ops[i])
  {
    assert ops[..i + 1][..i] == ops[..i];
  }

  /** Adding one more operation at the end. */
  lemma PlanOfAppend(ops: seq<FileOperation>, op: FileOperation)
    ensures PlanOf(ops + [op]) == Add(PlanOf(ops), op)
  {
    assert (ops + [op])[..|ops|] == ops;
  }

  /** The sources of a list of operations, in order. */
  function Sources(ops: seq<FileOperation>): (r: seq<Path>)
    ensures |r| == |ops|
  {
    if ops == [] then [] else Sources(ops[..|ops| - 1]) + [ops[|ops| - 1].source]
  }

  /** The i-th source is the source of the i-th operation. */
  lemma {:induction false} SourcesAt(ops: seq<FileOperation>, i: nat)
    requires i < |ops|
    ensures Sources(ops)[i] == ops[i].source
    decreases |ops|
  {
    if i < |ops| - 1 {
      SourcesAt(ops[..|ops| - 1], i);
    }
  }

  lemma SourcesAppend(ops: seq<FileOperation>, op: FileOperation)
    ensures Sources(ops + [op]) == Sources(ops) + [op.source]
  {
    assert (ops + [op])[..|ops|] == ops;
  }

  /** The operations filed under `k`, in their original order. */
  function Select(ops: seq<FileOperation>, k: Path): seq<FileOperation> {
    if ops == [] then []
    else Select(ops[..|ops| - 1], k) + (if GroupKey(ops[|ops| - 1]) == k then [ops[|ops| - 1]] else [])
  }

  /** The directories of the operations, each once, in order of first
      appearance. */
  function KeysOf(ops: seq<FileOperation>): seq<Path> {
    if ops == [] then []
    else
      var ks := KeysOf(ops[..|ops| - 1]);
      if GroupKey(ops[|ops| - 1]) in ks then ks else ks + [GroupKey(ops[|ops| - 1])]
  }

  /** The operations of the listed groups, group after group: the order of
      `for file_ops in operations.values(): for file_op in file_ops`. */
  function ScheduleOf(keys: seq<Path>, groups: map<Path, seq<FileOperation>>): seq<FileOperation> {
    if keys == [] then []
    else ScheduleOf(keys[..|keys| - 1], groups) + GroupOf(groups, keys[|keys| - 1])
  }

  /** The list under a key; a key without a list contributes nothing. */
  function GroupOf(groups: map<Path, seq<FileOperation>>, k: Path): seq<FileOperation> {
    if k in groups then groups[k] else []
  }

  function Schedule(plan: Plan): seq<FileOperation> {
    ScheduleOf(plan.keys, plan.groups)
  }

  /** Walking one more group. */
  lemma ScheduleOfSnoc(keys: seq<Path>, groups: map<Path, seq<FileOperation>>, g: nat)
    requires g < |keys|
    ensures ScheduleOf(keys[..g + 1], groups) == ScheduleOf(keys[..g], groups) + GroupOf(groups, keys[g])
  {
    assert keys[..g + 1][..g] == keys[..g];
  }

  /** `sum(len(file_ops) for file_ops in operations.values())`. */
  function SumOf(keys: seq<Path>, groups: map<Path, seq<FileOperation>>): nat {
    if keys == [] then 0
    else SumOf(keys[..|keys| - 1], groups) + |GroupOf(groups, keys[|keys| - 1])|
  }

  function Total(plan: Plan): nat {
    SumOf(plan.keys, plan.groups)
  }

  /** Adding an operation keeps the plan well formed. */
  lemma AddValid(plan: Plan, op: FileOperation)
    requires WellFormed(plan)
    ensures WellFormed(Add(plan, op))
  {
  }

  /** The plan of a list of operations is well formed; its keys are the
      operations' directories in order of first appearance, and the list
      under each key holds exactly the operations filed there, in their
      original order. */
  lemma {:induction false} PlanOfShape(ops: seq<FileOperation>)
    ensures WellFormed(PlanOf(ops))
    ensures PlanOf(ops).keys == KeysOf(ops)
    ensures forall k :: k in PlanOf(ops).groups ==> PlanOf(ops).groups[k] == Select(ops, k)
    ensures forall k :: k !in PlanOf(ops).groups ==> Select(ops, k) == []
    decreases |ops|
  {
    if ops != [] {
      var front := ops[..|ops| - 1];
      PlanOfShape(front);
      AddValid(PlanOf(front), ops[|ops| - 1]);
    }
  }

  /** The plan is empty exactly when there are no operations. */
  lemma PlanOfEmpty(ops: seq<FileOperation>)
    ensures PlanOf(ops).keys == [] <==> ops == []
  {
    PlanOfShape(ops);
    if ops != [] {
      assert GroupKey(ops[|ops| - 1]) in PlanOf(ops).groups;
    }
  }

  /** Replacing the list of a key outside `keys` does not change the
      schedule of `keys`. */
  lemma {:induction false} ScheduleOfOther(keys: seq<Path>, groups: map<Path, seq<FileOperation>>, k: Path, g: seq<FileOperation>)
    requires forall x :: x in keys ==> x in groups
    requires k !in keys
    ensures ScheduleOf(keys, groups[k := g]) == ScheduleOf(keys, groups)
    ensures SumOf(keys, groups[k := g]) == SumOf(keys, groups)
    decreases |keys|
  {
    if keys != [] {
      ScheduleOfOther(keys[..|keys| - 1], groups, k, g);
    }
  }

  /** Appending one operation to the list of a listed key adds exactly that
      operation to the schedule, and one to the total. */
  lemma {:induction false} ScheduleOfAppend(keys: seq<Path>, groups: map<Path, seq<FileOperation>>, k: Path, op: FileOperation)
    requires forall x :: x in keys ==> x in groups
    requires forall i, j :: 0 <= i < j < |keys| ==> keys[i] != keys[j]
    requires k in keys
    ensures multiset(ScheduleOf(keys, groups[k := groups[k] + [op]])) == multiset(ScheduleOf(keys, groups)) + multiset{op}
    ensures SumOf(keys, groups[k := groups[k] + [op]]) == SumOf(keys, groups) + 1
    decreases |keys|
  {
    var front := keys[..|keys| - 1];
    var last := keys[|keys| - 1];
    if last == k {
      assert k !in front;
      ScheduleOfOther(front, groups, k, groups[k] + [op]);
    } else {
      ScheduleOfAppend(front, groups, k, op);
    }
  }

  /** Adding an operation adds exactly it to the schedule and one to the
      total, and keeps the plan well formed. */
  lemma AddSchedule(plan: Plan, op: FileOperation)
    requires WellFormed(plan)
    ensures WellFormed(Add(plan, op))
    ensures multiset(Schedule(Add(plan, op))) == multiset(Schedule(plan)) + multiset{op}
    ensures Total(Add(plan, op)) == Total(plan) + 1
  {
    AddValid(plan, op);
    if GroupKey(op) in plan.groups {
      AddToKey(plan, op);
    } else {
      AddToNewKey(plan, op);
    }
  }

  /** Adding under a new key appends the key with a one-element list. */
  lemma AddToNewKey(plan: Plan, op: FileOperation)
    requires WellFormed(plan) && GroupKey(op) !in plan.groups
    ensures multiset(Schedule(Add(plan, op))) == multiset(Schedule(plan)) + multiset{op}
    ensures Total(Add(plan, op)) == Total(plan) + 1
  {
    var k := GroupKey(op);
    assert Add(plan, op) == Plan(plan.keys + [k], plan.groups[k := [op]]);
    AddNewKey(plan.keys, plan.groups, k, op);
  }

  /** Adding under an existing key appends to that key's list. */
  lemma AddToKey(plan: Plan, op: FileOperation)
    requires WellFormed(plan) && GroupKey(op) in plan.groups
    ensures multiset(Schedule(Add(plan, op))) == multiset(Schedule(plan)) + multiset{op}
    ensures Total(Add(plan, op)) == Total(plan) + 1
  {
    var k := GroupKey(op);
    assert Add(plan, op) == Plan(plan.keys, plan.groups[k := plan.groups[k] + [op]]);
    ScheduleOfAppend(plan.keys, plan.groups, k, op);
  }

  /** Walking the plan visits every operation exactly once, and the total
      counts them: the plan is a regrouping of the operations. */
  lemma {:induction false} ScheduleIsPermutation(ops: seq<FileOperation>)
    ensures WellFormed(PlanOf(ops))
    ensures multiset(Schedule(PlanOf(ops))) == multiset(ops)
    ensures Total(PlanOf(ops)) == |ops|
    decreases |ops|
  {
    if ops != [] {
      var front := ops[..|ops| - 1];
      var last := ops[|ops| - 1];
      ScheduleIsPermutation(front);
      var plan := PlanOf(front);
      AddSchedule(plan, last);
      MultisetSnoc(ops);
    }
  }

  lemma MultisetSnoc<T>(s: seq<T>)
    requires s != []
    ensures multiset(s) == multiset(s[..|s| - 1]) + multiset{s[|s| - 1]}
  {
    assert s == s[..|s| - 1] + [s[|s| - 1]];
  }

  /** Adding an operation under a new key puts it at the end of the
      schedule and adds one to the total. */
  lemma AddNewKey(keys: seq<Path>, groups: map<Path, seq<FileOperation>>, k: Path, op: FileOperation)
    requires forall x :: x in keys ==> x in groups
    requires k !in keys
    ensures ScheduleOf(keys + [k], groups[k := [op]]) == ScheduleOf(keys, groups) + [op]
    ensures SumOf(keys + [k], groups[k := [op]]) == SumOf(keys, groups) + 1
  {
    assert (keys + [k])[..|keys|] == keys;
    ScheduleOfOther(keys, groups, k, [op]);
  }
}
