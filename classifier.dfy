/**
 * Classification of a file: the lower-cased extension map built from the
 * category table (`_build_extension_map`), the lookup of a file's suffix in
 * it (`get_category`) and the age test (`is_old_file`), after
 * src/tidydir/organizer.py.
 */
module Classifier {
  import opened Common
  import opened Text
  import opened Paths
  import opened Categories

  /** The organizer's `ext_to_category` dictionary. */
  type ExtensionMap = map<string, Category>

  /** The lower-cased forms of a set of extensions. */
  function LowerSet(exts: set<string>): set<string> {
    set e | e in exts :: Lower(e)
  }

  /** The map `_build_extension_map` builds from a table, as a left fold:
      each entry in turn assigns its category to the lower-cased form of
      each of its extensions, overriding what earlier entries assigned. */
  function ExtensionMapOf(table: seq<Entry>): ExtensionMap {
    if table == [] then map[]
    else
      var last := table[|table| - 1];
      ExtensionMapOf(table[..|table| - 1]) + map e | e in LowerSet(last.extensions) :: last.category
  }

  /** Entry i lists some extension whose lower-cased form is k. */
  predicate ListsLowered(table: seq<Entry>, i: int, k: string)
    requires 0 <= i < |table|
  {
    k in LowerSet(table[i].extensions)
  }

  /** One step of the fold: the last entry's lowered extensions take the
      last entry's category, every other key keeps what the front gave it. */
  lemma ExtensionMapStep(table: seq<Entry>, k: string)
    requires table != []
    ensures var front, last := table[..|table| - 1], table[|table| - 1];
            (k in ExtensionMapOf(table) <==> k in LowerSet(last.extensions) || k in ExtensionMapOf(front))
            && (k in LowerSet(last.extensions) ==> ExtensionMapOf(table)[k] == last.category)
            && (k !in LowerSet(last.extensions) && k in ExtensionMapOf(front) ==>
                  ExtensionMapOf(table)[k] == ExtensionMapOf(front)[k])
  {
  }

  /** The keys of the map are exactly the lower-cased extensions of the
      table. */
  lemma {:induction false} ExtensionMapKeys(table: seq<Entry>, k: string)
    ensures k in ExtensionMapOf(table) <==> exists i :: 0 <= i < |table| && ListsLowered(table, i, k)
    decreases |table|
  {
    if table != [] {
      var n := |table| - 1;
      var front := table[..n];
      ExtensionMapKeys(front, k);
      ExtensionMapStep(table, k);
      if k in ExtensionMapOf(table) {
        if k in LowerSet(table[n].extensions) {
          assert ListsLowered(table, n, k);
        } else {
          var i :| 0 <= i < n && ListsLowered(front, i, k);
          assert ListsLowered(table, i, k);
        }
      }
      if exists i :: 0 <= i < |table| && ListsLowered(table, i, k) {
        var i :| 0 <= i < |table| && ListsLowered(table, i, k);
        if i < n {
          assert ListsLowered(front, i, k);
        }
      }
    }
  }

  /** Each key maps to the category of the LAST entry that lists it: a
      later declaration wins. */
  lemma {:induction false} ExtensionMapLastWins(table: seq<Entry>, k: string, i: int)
    requires 0 <= i < |table| && ListsLowered(table, i, k)
    requires forall j :: i < j < |table| ==> !ListsLowered(table, j, k)
    ensures k in ExtensionMapOf(table) && ExtensionMapOf(table)[k] == table[i].category
    decreases |table|
  {
    var n := |table| - 1;
    var front := table[..n];
    ExtensionMapStep(table, k);
    if i < n {
      assert !ListsLowered(table, n, k);
      assert ListsLowered(front, i, k);
      forall j | i < j < |front|
        ensures !ListsLowered(front, j, k)
      {
        assert !ListsLowered(table, j, k);
      }
      ExtensionMapLastWins(front, k, i);
    }
  }

  /** Every key of the map is lower case, so a mixed-case literal such as
      `.BUILD` is reachable only through its lower-case form. */
  lemma {:induction false} ExtensionMapKeysLower(table: seq<Entry>)
    ensures forall k :: k in ExtensionMapOf(table) ==> IsLower(k)
    decreases |table|
  {
    if table != [] {
      ExtensionMapKeysLower(table[..|table| - 1]);
      forall e | e in table[|table| - 1].extensions
        ensures IsLower(Lower(e))
      {
        LowerIsLower(e);
      }
    }
  }

  /** Every value of the map is the category of some entry of the table. */
  lemma {:induction false} ExtensionMapValues(table: seq<Entry>)
    ensures forall k :: k in ExtensionMapOf(table) ==>
              exists i :: 0 <= i < |table| && table[i].category == ExtensionMapOf(table)[k]
    decreases |table|
  {
    if table != [] {
      var front := table[..|table| - 1];
      ExtensionMapValues(front);
      forall k | k in ExtensionMapOf(table)
        ensures exists i :: 0 <= i < |table| && table[i].category == ExtensionMapOf(table)[k]
      {
        if k in LowerSet(table[|table| - 1].extensions) {
          assert table[|table| - 1].category == ExtensionMapOf(table)[k];
        } else {
          var i :| 0 <= i < |front| && front[i].category == ExtensionMapOf(front)[k];
          assert table[i].category == ExtensionMapOf(table)[k];
        }
      }
    }
  }

  /** `_build_extension_map`: the nested loop over the table and over each
      entry's set (in whatever order the set yields its elements) builds
      exactly the fold above. */
  method BuildExtensionMap(table: seq<Entry>) returns (extMap: ExtensionMap)
    ensures extMap == ExtensionMapOf(table)
  {
    extMap := map[];
    var i := 0;
    while i < |table|
      invariant 0 <= i <= |table|
      invariant extMap == ExtensionMapOf(table[..i])
    {
      var entry := table[i];
      var before := extMap;
      var rest := entry.extensions;
      ghost var done: set<string> := {};
      while rest != {}
        invariant rest + done == entry.extensions
        invariant extMap == before + map e | e in LowerSet(done) :: entry.category
        decreases |rest|
      {
        var ext :| ext in rest;
        AssignOneMore(before, done, ext, entry.category);
        extMap := extMap[Lower(ext) := entry.category];
        rest := rest - {ext};
        done := done + {ext};
      }
      assert table[..i + 1][..i] == table[..i];
      assert done == entry.extensions;
      i := i + 1;
    }
    assert table[..|table|] == table;
  }

  /** Assigning one more extension extends the comprehension by one key. */
  lemma AssignOneMore(m: ExtensionMap, done: set<string>, ext: string, c: Category)
    ensures (m + map e | e in LowerSet(done) :: c)[Lower(ext) := c]
            == m + map e | e in LowerSet(done + {ext}) :: c
  {
    LowerSetAdd(done, ext);
    MapExtend(m, LowerSet(done), Lower(ext), c);
  }

  /** Lowering one more extension adds its lower-cased form. */
  lemma LowerSetAdd(done: set<string>, ext: string)
    ensures LowerSet(done + {ext}) == LowerSet(done) + {Lower(ext)}
  {
  }

  /** Assigning one more key to a constant comprehension. */
  lemma MapExtend(m: ExtensionMap, keys: set<string>, k: string, c: Category)
    ensures (m + map e | e in keys :: c)[k := c] == m + map e | e in keys + {k} :: c
  {
    var lhs := (m + map e | e in keys :: c)[k := c];
    var rhs := m + map e | e in keys + {k} :: c;
    assert lhs.Keys == rhs.Keys;
    assert forall x :: x in lhs ==> lhs[x] == rhs[x];
  }

  /** `get_category`: the file's suffix, lower-cased, looked up in the map;
      the default category when it is not a key. */
  function CategoryOf(extMap: ExtensionMap, file: Path): Category {
    var ext := Lower(Suffix(Name(file)));
    if ext in extMap then extMap[ext] else Default
  }

  /** Lower-casing a name does not move its last dot. */
  lemma {:induction false} LastDotLower(s: string)
    ensures LastDot(Lower(s)) == LastDot(s)
    decreases |s|
  {
    if s != [] {
      var front := s[..|s| - 1];
      LowerSlice(s, 0, |s| - 1);
      assert Lower(s)[..|s| - 1] == Lower(front);
      LastDotLower(front);
    }
  }

  /** The suffix of a lower-cased name is the lower-cased suffix. */
  lemma SuffixLower(s: string)
    ensures Suffix(Lower(s)) == Lower(Suffix(s))
  {
    LastDotLower(s);
    var i := LastDot(s);
    if 0 < i < |s| - 1 {
      LowerSlice(s, i, |s|);
    }
  }

  /** `get_category` ignores case: two files whose names agree once
      lower-cased fall in the same category. */
  lemma CategoryIgnoresCase(extMap: ExtensionMap, p: Path, q: Path)
    requires Lower(Name(p)) == Lower(Name(q))
    ensures CategoryOf(extMap, p) == CategoryOf(extMap, q)
  {
    SuffixLower(Name(p));
    SuffixLower(Name(q));
  }

  /** A key containing a second dot is never looked up: the suffix of a
      name holds exactly one dot, and lower-casing keeps it. */
  lemma MultiDotKeyUnreachable(k: string, i: int, j: int, p: Path)
    requires 0 <= i < j < |k| && k[i] == '.' && k[j] == '.'
    ensures Lower(Suffix(Name(p))) != k
  {
    var x := Suffix(Name(p));
    SuffixShape(Name(p));
    LowerKeepsDots(x);
  }

  /** `is_old_file`: the modification time, when `stat` can read it, lies
      strictly before the cutoff; an unreadable `stat` means "not old". */
  function IsOld(cutoff: int, mtime: Option<int>): bool {
    match mtime
    case None => false
    case Some(t) => t < cutoff
  }

  /** The age test is a threshold: a file touched exactly at the cutoff is
      not old, and a file older than an old file is old as well. */
  lemma IsOldThreshold(cutoff: int, t: int, u: int)
    ensures !IsOld(cutoff, Some(cutoff))
    ensures IsOld(cutoff, Some(t)) && u <= t ==> IsOld(cutoff, Some(u))
    ensures IsOld(cutoff, Some(t)) <==> t < cutoff
    ensures !IsOld(cutoff, None)
  {
  }

  /** The cutoff the constructor computes: `old_files_days` whole days
      before the moment of construction, in seconds. */
  function Cutoff(now: int, days: int): int {
    now - days * 86400
  }

  /** With that cutoff, a file is old exactly when its modification time
      lies more than `days` whole days before the moment of construction;
      a negative `days` puts the cutoff in the future. */
  lemma OldMeansOlderThanDays(now: int, days: int, t: int)
    ensures IsOld(Cutoff(now, days), Some(t)) <==> now - t > days * 86400
    ensures days < 0 && t <= now ==> IsOld(Cutoff(now, days), Some(t))
  {
  }
}
