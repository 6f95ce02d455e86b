/**
 * Where a file goes (`get_target_path`, src/tidydir/organizer.py): the
 * category directory under the target, or under a dated archive directory
 * for old files, and there the file's own name or, if that is taken on
 * disk, the first free `stem_k` + suffix with k = 1, 2, ...
 */
module Resolver {
  import opened Text
  import opened Paths
  import opened Categories
  import opened FileSystem

  /** The directory a file of `category` goes to: `target/<category>`, or
      `target/archive_<date>/<category>` for an old file. */
  function BaseDir(target: Path, category: Category, isOld: bool, date: string): (r: Path)
    ensures Name(r) == Value(category)
    ensures isOld ==> r == target + ["archive_" + date, Value(category)]
    ensures !isOld ==> r == target + [Value(category)]
  {
    if isOld then target + ["archive_" + date] + [Value(category)]
    else target + [Value(category)]
  }

  /** The name tried at attempt k: the file's own name for k = 0, and
      `f"{stem}_{k}{suffix}"` for k >= 1. */
  function CandidateName(name: string, k: nat): string {
    if k == 0 then name else Stem(name) + "_" + Decimal(k) + Suffix(name)
  }

  function Candidate(base: Path, name: string, k: nat): Path {
    base + [CandidateName(name, k)]
  }

  /** Different counters give different names, so probing never revisits a
      path. */
  lemma CandidateNameInjective(name: string, j: nat, k: nat)
    requires 1 <= j && 1 <= k
    requires CandidateName(name, j) == CandidateName(name, k)
    ensures j == k
  {
    var pre := Stem(name) + "_";
    var dj := Decimal(j);
    var dk := Decimal(k);
    var x := Suffix(name);
    assert pre + dj + x == pre + dk + x;
    assert |dj| == |dk|;
    assert dj == (pre + dj + x)[|pre|..|pre| + |dj|];
    assert dk == (pre + dk + x)[|pre|..|pre| + |dk|];
    DecimalInjective(j, k);
  }

  /** The name `x.jpg`: stem `x`, suffix `.jpg`, first renamed to
      `x_1.jpg`. */
  lemma XJpgParts()
    ensures LastDot("x.jpg") == 1
    ensures Suffix("x.jpg") == ".jpg" && Stem("x.jpg") == "x"
    ensures Lower(".jpg") == ".jpg"
    ensures CandidateName("x.jpg", 1) == "x_1.jpg"
  {
    assert "x.jpg"[..4] == "x.jp" && "x.jp"[..3] == "x.j" && "x.j"[..2] == "x.";
    assert LastDot("x.") == 1;
    assert LastDot("x.j") == 1;
    assert LastDot("x.jp") == 1;
    var lowered := Lower(".jpg");
    assert lowered[0] == '.' && lowered[1] == 'j' && lowered[2] == 'p' && lowered[3] == 'g';
    assert Decimal(1) == "1";
  }

  /** The paths on disk that probing from attempt k onwards could still
      meet. */
  ghost function Occupied(d: Disk, base: Path, name: string, k: nat): set<Path> {
    set p | p in d.dirs + d.files && exists j: nat :: k <= j && p == Candidate(base, name, j)
  }

  /** The least counter j >= k whose candidate does not exist. It exists
      because the disk is finite and the candidates are all different. */
  ghost function FirstFree(d: Disk, base: Path, name: string, k: nat): (j: nat)
    requires k >= 1
    ensures k <= j && !Exists(d, Candidate(base, name, j))
    ensures forall i :: k <= i < j ==> Exists(d, Candidate(base, name, i))
    decreases |Occupied(d, base, name, k)|
  {
    if !Exists(d, Candidate(base, name, k)) then k
    else
      OccupiedShrinks(d, base, name, k);
      FirstFree(d, base, name, k + 1)
  }

  /** An occupied candidate is no longer ahead once probing has passed it. */
  lemma OccupiedShrinks(d: Disk, base: Path, name: string, k: nat)
    requires k >= 1 && Exists(d, Candidate(base, name, k))
    ensures |Occupied(d, base, name, k + 1)| < |Occupied(d, base, name, k)|
  {
    var c := Candidate(base, name, k);
    var ahead := Occupied(d, base, name, k + 1);
    var now := Occupied(d, base, name, k);
    assert c in now;
    forall p | p in ahead
      ensures p in now && p != c
    {
      var j: nat :| k + 1 <= j && p == Candidate(base, name, j);
      if p == c {
        CandidateInjective(base, name, j, k);
      }
    }
    StrictSubsetCard(ahead, now, c);
  }

  lemma StrictSubsetCard<T>(a: set<T>, b: set<T>, x: T)
    requires a <= b && x in b && x !in a
    ensures |a| < |b|
  {
    assert a + {x} <= b;
    assert b == (a + {x}) + (b - (a + {x}));
  }

  lemma CandidateInjective(base: Path, name: string, j: nat, k: nat)
    requires 1 <= j && 1 <= k
    requires Candidate(base, name, j) == Candidate(base, name, k)
    ensures j == k
  {
    assert Candidate(base, name, j)[|base|] == CandidateName(name, j);
    assert Candidate(base, name, k)[|base|] == CandidateName(name, k);
    CandidateNameInjective(name, j, k);
  }

  /** The natural target is taken: the file will be renamed and a conflict
      recorded. */
  predicate Conflicts(d: Disk, base: Path, name: string) {
    Exists(d, Candidate(base, name, 0))
  }

  /** `get_target_path` as a function of the disk: the natural target when
      it is free, otherwise the first free numbered candidate. */
  ghost function TargetPath(d: Disk, base: Path, name: string): (r: Path)
    ensures !Exists(d, r)
  {
    if !Conflicts(d, base, name) then Candidate(base, name, 0)
    else Candidate(base, name, FirstFree(d, base, name, 1))
  }

  /** The resolved target lies directly in the base directory. */
  lemma TargetPathParent(d: Disk, base: Path, name: string)
    ensures Parent(TargetPath(d, base, name)) == base
  {
    var r := TargetPath(d, base, name);
    assert r[..|r| - 1] == base;
  }

  /** The resolved target is the natural one exactly when that is free, and
      otherwise the least numbered candidate not on disk. */
  lemma TargetPathIsLeastFree(d: Disk, base: Path, name: string)
    ensures !Conflicts(d, base, name) ==> TargetPath(d, base, name) == base + [name]
    ensures Conflicts(d, base, name) ==>
              exists k: nat :: 1 <= k && TargetPath(d, base, name) == Candidate(base, name, k)
                && (forall i :: 1 <= i < k ==> Exists(d, Candidate(base, name, i)))
  {
    if Conflicts(d, base, name) {
      var k := FirstFree(d, base, name, 1);
      assert TargetPath(d, base, name) == Candidate(base, name, k);
    }
  }
}
