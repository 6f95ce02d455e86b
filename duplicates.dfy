/**
 * The consistency check of scripts/fix_duplicate_extensions.py over a
 * table of (category, extensions) entries in declaration order.
 * `find_duplicates` walks the table entry by entry and each entry's set
 * in the order iterating it yields, remembering the FIRST category that
 * lists each extension and reporting every later sighting as a triple
 * (extension, first owner, later owner). The order a Python set yields its
 * elements in is not specified, so it is a parameter here: `order[p]`
 * lists the elements of entry p's set, each once.
 */
module Duplicates {
  import opened Text
  import opened Categories
  import opened Classifier

  /** One `(ext, cat1, cat2)` tuple: `ext` was first seen under `first`
      and is seen again under `later`. */
  datatype Duplicate = Duplicate(ext: string, first: Category, later: Category)

  /** One pass of the inner loop: `ext` seen in entry `entry`, whose
      category is `category`. */
  datatype Sighting = Sighting(ext: string, entry: nat, category: Category)

  /** `xs` is a way of iterating the set `exts`: each element once. */
  ghost predicate EnumeratesSet(xs: seq<string>, exts: set<string>) {
    (forall x :: x in xs <==> x in exts)
    && (forall i, j :: 0 <= i < j < |xs| ==> xs[i] != xs[j])
  }

  /** `order[p]` is the order in which iterating entry p's set yields it. */
  ghost predicate Enumerates(table: seq<Entry>, order: seq<seq<string>>) {
    |order| == |table|
    && forall p :: 0 <= p < |table| ==> EnumeratesSet(order[p], table[p].extensions)
  }

  /** The sightings of one entry, in the order its set is iterated. */
  function Row(xs: seq<string>, p: nat, c: Category): (r: seq<Sighting>)
    ensures |r| == |xs|
  {
    if xs == [] then [] else Row(xs[..|xs| - 1], p, c) + [Sighting(xs[|xs| - 1], p, c)]
  }

  /** Position k of a row sights the k-th element of the entry's order. */
  lemma {:induction false} RowAt(xs: seq<string>, p: nat, c: Category)
    ensures forall k :: 0 <= k < |xs| ==> Row(xs, p, c)[k] == Sighting(xs[k], p, c)
    decreases |xs|
  {
    if xs != [] {
      var n := |xs| - 1;
      RowAt(xs[..n], p, c);
    }
  }

  /** Every sighting of the nested loop, in the order the loop makes them. */
  function Sightings(table: seq<Entry>, order: seq<seq<string>>): seq<Sighting>
    requires |order| == |table|
  {
    if table == [] then []
    else
      var n := |table| - 1;
      Sightings(table[..n], order[..n]) + Row(order[n], n, table[n].category)
  }

  /** `all_extensions` after a run of sightings: each extension is entered
      at its first sighting and never overwritten. */
  function FirstOwners(s: seq<Sighting>): map<string, Category> {
    if s == [] then map[]
    else
      var owners := FirstOwners(s[..|s| - 1]);
      var x := s[|s| - 1];
      if x.ext in owners then owners else owners[x.ext := x.category]
  }

  /** `duplicates` after a run of sightings: one triple per sighting of an
      extension already entered. */
  function DuplicatesOf(s: seq<Sighting>): seq<Duplicate> {
    if s == [] then []
    else
      var owners := FirstOwners(s[..|s| - 1]);
      var x := s[|s| - 1];
      DuplicatesOf(s[..|s| - 1])
        + (if x.ext in owners then [Duplicate(x.ext, owners[x.ext], x.category)] else [])
  }

  /** The inner loop's step: one more element of the entry's order. */
  lemma RowStep(before: seq<Sighting>, xs: seq<string>, j: int, p: nat, c: Category)
    requires 0 <= j < |xs|
    ensures before + Row(xs[..j + 1], p, c) == (before + Row(xs[..j], p, c)) + [Sighting(xs[j], p, c)]
  {
    assert xs[..j + 1][..j] == xs[..j];
  }

  /** The outer loop's step: one more entry of the table. */
  lemma SightingsStep(table: seq<Entry>, order: seq<seq<string>>, i: int)
    requires |order| == |table| && 0 <= i < |table|
    ensures Sightings(table[..i + 1], order[..i + 1])
            == Sightings(table[..i], order[..i]) + Row(order[i], i, table[i].category)
  {
    assert table[..i + 1][..i] == table[..i] && order[..i + 1][..i] == order[..i];
  }

  /** One sighting more: the fold takes its last step. */
  lemma FoldStep(seen: seq<Sighting>, x: Sighting)
    ensures var owners := FirstOwners(seen);
            && FirstOwners(seen + [x]) == (if x.ext in owners then owners else owners[x.ext := x.category])
            && DuplicatesOf(seen + [x])
               == DuplicatesOf(seen) + (if x.ext in owners then [Duplicate(x.ext, owners[x.ext], x.category)] else [])
  {
    assert (seen + [x])[..|seen|] == seen;
  }

  /** `find_duplicates`: the nested loop, with `all_extensions` as a local
      map, returns the triples of the fold above. */
  method FindDuplicates(table: seq<Entry>, order: seq<seq<string>>) returns (duplicates: seq<Duplicate>)
    requires Enumerates(table, order)
    ensures duplicates == DuplicatesOf(Sightings(table, order))
  {
    var allExtensions: map<string, Category> := map[];
    duplicates := [];
    var i := 0;
    while i < |table|
      invariant 0 <= i <= |table|
      invariant allExtensions == FirstOwners(Sightings(table[..i], order[..i]))
      invariant duplicates == DuplicatesOf(Sightings(table[..i], order[..i]))
    {
      var category := table[i].category;
      var exts := order[i];
      ghost var before := Sightings(table[..i], order[..i]);
      var j := 0;
      assert before + Row(exts[..0], i, category) == before;
      while j < |exts|
        invariant 0 <= j <= |exts|
        invariant allExtensions == FirstOwners(before + Row(exts[..j], i, category))
        invariant duplicates == DuplicatesOf(before + Row(exts[..j], i, category))
      {
        var ext := exts[j];
        RowStep(before, exts, j, i, category);
        FoldStep(before + Row(exts[..j], i, category), Sighting(ext, i, category));
        if ext in allExtensions {
          duplicates := duplicates + [Duplicate(ext, allExtensions[ext], category)];
        } else {
          allExtensions := allExtensions[ext := category];
        }
        j := j + 1;
      }
      assert exts[..j] == exts;
      SightingsStep(table, order, i);
      i := i + 1;
    }
    assert table[..i] == table && order[..i] == order;
  }

  /** The within-category check of `main`: walking `list(extensions)` with
      a `seen` set reports every element met a second time. */
  method RepeatsWithinCategories(table: seq<Entry>, order: seq<seq<string>>)
    returns (repeats: seq<(string, Category)>)
    requires Enumerates(table, order)
    ensures repeats == []
  {
    repeats := [];
    var i := 0;
    while i < |table|
      invariant 0 <= i <= |table|
      invariant repeats == []
    {
      var category := table[i].category;
      var extList := order[i];
      var seen: set<string> := {};
      var j := 0;
      while j < |extList|
        invariant 0 <= j <= |extList|
        invariant seen == set k | 0 <= k < j :: extList[k]
        invariant repeats == []
      {
        var ext := extList[j];
        if ext in seen {
          repeats := repeats + [(ext, category)];
        }
        seen := seen + {ext};
        j := j + 1;
      }
      i := i + 1;
    }
  }

  /** How many sightings are of `e`. */
  function Occurrences(s: seq<Sighting>, e: string): nat {
    if s == [] then 0
    else Occurrences(s[..|s| - 1], e) + (if s[|s| - 1].ext == e then 1 else 0)
  }

  /** How many triples are about `e`. */
  function CountFor(ds: seq<Duplicate>, e: string): nat {
    if ds == [] then 0
    else CountFor(ds[..|ds| - 1], e) + (if ds[|ds| - 1].ext == e then 1 else 0)
  }

  /** How many entries of the table list `e`. */
  function Listers(table: seq<Entry>, e: string): nat {
    if table == [] then 0
    else Listers(table[..|table| - 1], e) + (if e in table[|table| - 1].extensions then 1 else 0)
  }

  /** No sighting before position `i` is of the same extension. */
  predicate FirstAt(s: seq<Sighting>, i: int)
    requires 0 <= i < |s|
  {
    forall k :: 0 <= k < i ==> s[k].ext != s[i].ext
  }

  /** An extension is entered exactly when it has been sighted. */
  lemma {:induction false} FirstOwnersKeys(s: seq<Sighting>, e: string)
    ensures e in FirstOwners(s) <==> Occurrences(s, e) > 0
    ensures Occurrences(s, e) > 0 <==> exists i :: 0 <= i < |s| && s[i].ext == e
    decreases |s|
  {
    if s != [] {
      var n := |s| - 1;
      FirstOwnersKeys(s[..n], e);
      if exists i :: 0 <= i < |s| && s[i].ext == e {
        var i :| 0 <= i < |s| && s[i].ext == e;
        if i < n {
          assert s[..n][i].ext == e;
        }
      }
      if exists i :: 0 <= i < n && s[..n][i].ext == e {
        var i :| 0 <= i < n && s[..n][i].ext == e;
        assert s[i].ext == e;
      }
    }
  }

  /** An entered extension keeps the category of its first sighting. */
  lemma {:induction false} FirstOwnersFirst(s: seq<Sighting>, i: int)
    requires 0 <= i < |s| && FirstAt(s, i)
    ensures s[i].ext in FirstOwners(s) && FirstOwners(s)[s[i].ext] == s[i].category
    decreases |s|
  {
    var n := |s| - 1;
    var e := s[i].ext;
    if i < n {
      assert s[..n][i] == s[i];
      assert FirstAt(s[..n], i);
      FirstOwnersFirst(s[..n], i);
    } else {
      FirstOwnersKeys(s[..n], e);
      assert forall k :: 0 <= k < n ==> s[..n][k].ext != e;
    }
  }

  /** The triple for a run of sightings is witnessed by a first sighting
      and a later one of its extension. */
  ghost predicate Witnessed(s: seq<Sighting>, d: Duplicate) {
    exists i, j :: 0 <= i < j < |s| && FirstAt(s, i) && s[i].ext == d.ext && s[j].ext == d.ext
                   && d.first == s[i].category && d.later == s[j].category
  }

  /** The least position at which `e` is sighted. */
  lemma {:induction false} FirstSighting(s: seq<Sighting>, e: string, j: int) returns (i: int)
    requires 0 <= j < |s| && s[j].ext == e
    ensures 0 <= i <= j && s[i].ext == e && FirstAt(s, i)
    decreases j
  {
    if FirstAt(s, j) {
      i := j;
    } else {
      var k :| 0 <= k < j && s[k].ext == e;
      i := FirstSighting(s, e, k);
    }
  }

  /** A witness in a prefix is a witness in the whole run. */
  lemma WitnessedExtends(s: seq<Sighting>, n: int, d: Duplicate)
    requires 0 <= n <= |s| && Witnessed(s[..n], d)
    ensures Witnessed(s, d)
  {
    var front := s[..n];
    var i, j :| 0 <= i < j < |front| && FirstAt(front, i) && front[i].ext == d.ext && front[j].ext == d.ext
                && d.first == front[i].category && d.later == front[j].category;
    assert FirstAt(s, i);
  }

  /** The triple the last sighting adds is witnessed. */
  lemma WitnessedLast(s: seq<Sighting>)
    requires s != [] && s[|s| - 1].ext in FirstOwners(s[..|s| - 1])
    ensures var x := s[|s| - 1];
            Witnessed(s, Duplicate(x.ext, FirstOwners(s[..|s| - 1])[x.ext], x.category))
  {
    var n := |s| - 1;
    var front := s[..n];
    var x := s[n];
    FirstOwnersKeys(front, x.ext);
    var j :| 0 <= j < n && front[j].ext == x.ext;
    var i := FirstSighting(front, x.ext, j);
    FirstOwnersFirst(front, i);
    assert FirstAt(s, i);
  }

  /** Every triple pairs the first sighting of its extension with a later
      sighting of it. */
  lemma {:induction false} DuplicatesWitnessed(s: seq<Sighting>)
    ensures forall k :: 0 <= k < |DuplicatesOf(s)| ==> Witnessed(s, DuplicatesOf(s)[k])
    decreases |s|
  {
    if s != [] {
      var n := |s| - 1;
      var front := s[..n];
      DuplicatesWitnessed(front);
      var ds := DuplicatesOf(s);
      var m := |DuplicatesOf(front)|;
      forall k | 0 <= k < |ds|
        ensures Witnessed(s, ds[k])
      {
        if k < m {
          assert ds[k] == DuplicatesOf(front)[k];
          WitnessedExtends(s, n, ds[k]);
        } else {
          WitnessedLast(s);
        }
      }
    }
  }

  /** Each sighting of `e` after the first adds one triple about `e`. */
  lemma {:induction false} CountPerSighting(s: seq<Sighting>, e: string)
    ensures CountFor(DuplicatesOf(s), e) == if Occurrences(s, e) == 0 then 0 else Occurrences(s, e) - 1
    decreases |s|
  {
    if s != [] {
      var n := |s| - 1;
      var front := s[..n];
      CountPerSighting(front, e);
      FirstOwnersKeys(front, s[n].ext);
      var ds := DuplicatesOf(front);
      if s[n].ext in FirstOwners(front) {
        var d := Duplicate(s[n].ext, FirstOwners(front)[s[n].ext], s[n].category);
        assert DuplicatesOf(s) == ds + [d];
        assert (ds + [d])[..|ds|] == ds;
      } else {
        assert DuplicatesOf(s) == ds + [];
        assert ds + [] == ds;
      }
    }
  }

  /** Each sighting is of an extension its entry lists, under the entry's
      category. */
  ghost predicate Faithful(table: seq<Entry>, s: seq<Sighting>) {
    forall i :: 0 <= i < |s| ==>
      s[i].entry < |table| && s[i].ext in table[s[i].entry].extensions
      && s[i].category == table[s[i].entry].category
  }

  /** Sightings come entry by entry, and within an entry each extension once. */
  ghost predicate Ordered(s: seq<Sighting>) {
    forall i, j :: 0 <= i < j < |s| ==>
      s[i].entry < s[j].entry || (s[i].entry == s[j].entry && s[i].ext != s[j].ext)
  }

  /** Every extension of every entry is sighted. */
  ghost predicate Covers(table: seq<Entry>, s: seq<Sighting>) {
    forall p, e :: 0 <= p < |table| && e in table[p].extensions ==>
      exists i :: 0 <= i < |s| && s[i].entry == p && s[i].ext == e
  }

  /** A prefix of an enumerated table is enumerated by the prefix of the
      orders. */
  lemma EnumeratesPrefix(table: seq<Entry>, order: seq<seq<string>>, n: int)
    requires Enumerates(table, order) && 0 <= n <= |table|
    ensures Enumerates(table[..n], order[..n])
  {
    forall p | 0 <= p < n
      ensures EnumeratesSet(order[..n][p], table[..n][p].extensions)
    {
      assert order[..n][p] == order[p] && table[..n][p] == table[p];
    }
  }

  /** The loop sights only extensions an entry lists, under its category. */
  lemma {:induction false} SightingsFaithful(table: seq<Entry>, order: seq<seq<string>>)
    requires Enumerates(table, order)
    ensures Faithful(table, Sightings(table, order))
    decreases |table|
  {
    if table != [] {
      var n := |table| - 1;
      EnumeratesPrefix(table, order, n);
      SightingsFaithful(table[..n], order[..n]);
      var front := Sightings(table[..n], order[..n]);
      var row := Row(order[n], n, table[n].category);
      RowAt(order[n], n, table[n].category);
      var s := Sightings(table, order);
      assert s == front + row;
      forall i | 0 <= i < |s|
        ensures s[i].entry < |table| && s[i].ext in table[s[i].entry].extensions
                && s[i].category == table[s[i].entry].category
      {
        if i < |front| {
          assert s[i] == front[i];
          assert table[..n][front[i].entry] == table[front[i].entry];
        } else {
          assert s[i] == row[i - |front|];
          assert order[n][i - |front|] in order[n];
        }
      }
    }
  }

  /** The loop sights entry by entry, each extension of an entry once. */
  lemma {:induction false} SightingsOrdered(table: seq<Entry>, order: seq<seq<string>>)
    requires Enumerates(table, order)
    ensures Ordered(Sightings(table, order))
    decreases |table|
  {
    if table != [] {
      var n := |table| - 1;
      EnumeratesPrefix(table, order, n);
      SightingsOrdered(table[..n], order[..n]);
      SightingsFaithful(table[..n], order[..n]);
      var front := Sightings(table[..n], order[..n]);
      var row := Row(order[n], n, table[n].category);
      RowAt(order[n], n, table[n].category);
      var s := Sightings(table, order);
      assert s == front + row;
      forall i, j | 0 <= i < j < |s|
        ensures s[i].entry < s[j].entry || (s[i].entry == s[j].entry && s[i].ext != s[j].ext)
      {
        if j < |front| {
          assert s[i] == front[i] && s[j] == front[j];
        } else if i < |front| {
          assert s[i] == front[i] && s[j] == row[j - |front|];
        } else {
          assert s[i] == row[i - |front|] && s[j] == row[j - |front|];
        }
      }
    }
  }

  /** The loop sights every extension of every entry. */
  lemma {:induction false} SightingsCover(table: seq<Entry>, order: seq<seq<string>>)
    requires Enumerates(table, order)
    ensures Covers(table, Sightings(table, order))
    decreases |table|
  {
    if table != [] {
      var n := |table| - 1;
      EnumeratesPrefix(table, order, n);
      SightingsCover(table[..n], order[..n]);
      var front := Sightings(table[..n], order[..n]);
      var row := Row(order[n], n, table[n].category);
      RowAt(order[n], n, table[n].category);
      var s := Sightings(table, order);
      assert s == front + row;
      forall p, e | 0 <= p < |table| && e in table[p].extensions
        ensures exists i :: 0 <= i < |s| && s[i].entry == p && s[i].ext == e
      {
        if p < n {
          assert e in table[..n][p].extensions;
          var i :| 0 <= i < |front| && front[i].entry == p && front[i].ext == e;
          assert s[i] == front[i];
        } else {
          var k :| 0 <= k < |order[n]| && order[n][k] == e;
          assert s[|front| + k] == row[k];
        }
      }
    }
  }

  lemma {:induction false} OccurrencesAppend(a: seq<Sighting>, b: seq<Sighting>, e: string)
    ensures Occurrences(a + b, e) == Occurrences(a, e) + Occurrences(b, e)
    decreases |b|
  {
    if b != [] {
      var n := |b| - 1;
      assert (a + b)[..|a + b| - 1] == a + b[..n];
      OccurrencesAppend(a, b[..n], e);
    } else {
      assert a + b == a;
    }
  }

  lemma OccurrencesSnoc(a: seq<Sighting>, x: Sighting, e: string)
    ensures Occurrences(a + [x], e) == Occurrences(a, e) + (if x.ext == e then 1 else 0)
  {
    assert (a + [x])[..|a|] == a;
  }

  /** A row sights `e` once when the entry's order lists it, else never. */
  lemma {:induction false} OccurrencesRow(xs: seq<string>, p: nat, c: Category, e: string)
    requires forall i, j :: 0 <= i < j < |xs| ==> xs[i] != xs[j]
    ensures Occurrences(Row(xs, p, c), e) == if e in xs then 1 else 0
    decreases |xs|
  {
    if xs != [] {
      var n := |xs| - 1;
      var front := xs[..n];
      assert Row(xs, p, c) == Row(front, p, c) + [Sighting(xs[n], p, c)];
      OccurrencesSnoc(Row(front, p, c), Sighting(xs[n], p, c), e);
      OccurrencesRow(front, p, c, e);
      if xs[n] == e {
        forall k | 0 <= k < n
          ensures front[k] != e
        {
          assert front[k] == xs[k];
        }
      }
    }
  }

  /** An extension is sighted once per entry that lists it. */
  lemma {:induction false} OccurrencesListers(table: seq<Entry>, order: seq<seq<string>>, e: string)
    requires Enumerates(table, order)
    ensures Occurrences(Sightings(table, order), e) == Listers(table, e)
    decreases |table|
  {
    if table != [] {
      var n := |table| - 1;
      EnumeratesPrefix(table, order, n);
      OccurrencesListers(table[..n], order[..n], e);
      OccurrencesAppend(Sightings(table[..n], order[..n]), Row(order[n], n, table[n].category), e);
      OccurrencesRow(order[n], n, table[n].category, e);
    }
  }

  /** The triple `d` is backed by the table: entries p before q both list
      its extension as written, under its two categories, and no entry
      before p lists it. */
  ghost predicate FoundIn(table: seq<Entry>, d: Duplicate) {
    exists p, q :: 0 <= p < q < |table|
      && d.ext in table[p].extensions && d.ext in table[q].extensions
      && d.first == table[p].category && d.later == table[q].category
      && (forall r :: 0 <= r < p ==> d.ext !in table[r].extensions)
  }

  /** In an ordered run, no sighting of an extension lies in an earlier
      entry than its first sighting. */
  lemma FirstSightingLeast(s: seq<Sighting>, i: int)
    requires Ordered(s) && 0 <= i < |s| && FirstAt(s, i)
    ensures forall m :: 0 <= m < |s| && s[m].ext == s[i].ext ==> s[i].entry <= s[m].entry
  {
  }

  /** A witnessed triple of a faithful, ordered, covering run is backed
      by the table. */
  lemma WitnessedFound(table: seq<Entry>, s: seq<Sighting>, d: Duplicate)
    requires Faithful(table, s) && Ordered(s) && Covers(table, s)
    requires Witnessed(s, d)
    ensures FoundIn(table, d)
  {
    var i, j :| 0 <= i < j < |s| && FirstAt(s, i) && s[i].ext == d.ext && s[j].ext == d.ext
                && d.first == s[i].category && d.later == s[j].category;
    FirstSightingLeast(s, i);
    assert s[i].entry < s[j].entry;
  }

  /** Every reported triple names an extension listed by two entries: its
      first owner and a later one, in declaration order. */
  lemma DuplicatesSound(table: seq<Entry>, order: seq<seq<string>>)
    requires Enumerates(table, order)
    ensures forall d :: d in DuplicatesOf(Sightings(table, order)) ==> FoundIn(table, d)
  {
    var s := Sightings(table, order);
    SightingsFaithful(table, order);
    SightingsOrdered(table, order);
    SightingsCover(table, order);
    DuplicatesWitnessed(s);
    forall d | d in DuplicatesOf(s)
      ensures FoundIn(table, d)
    {
      var k :| 0 <= k < |DuplicatesOf(s)| && DuplicatesOf(s)[k] == d;
      WitnessedFound(table, s, d);
    }
  }

  /** An extension listed by n > 0 entries is reported n - 1 times; an
      extension listed by none is never reported. */
  lemma DuplicateCount(table: seq<Entry>, order: seq<seq<string>>, e: string)
    requires Enumerates(table, order)
    ensures CountFor(DuplicatesOf(Sightings(table, order)), e)
            == if Listers(table, e) == 0 then 0 else Listers(table, e) - 1
  {
    CountPerSighting(Sightings(table, order), e);
    OccurrencesListers(table, order, e);
  }

  /** Two entries listing `e` make it counted at least twice. */
  lemma {:induction false} ListersTwo(table: seq<Entry>, e: string, p: int, q: int)
    requires 0 <= p < q < |table| && e in table[p].extensions && e in table[q].extensions
    ensures Listers(table, e) >= 2
    decreases |table|
  {
    var n := |table| - 1;
    assert table[..n][p] == table[p];
    if q < n {
      assert table[..n][q] == table[q];
      ListersTwo(table[..n], e, p, q);
    } else {
      ListersOne(table[..n], e, p);
    }
  }

  lemma {:induction false} ListersOne(table: seq<Entry>, e: string, p: int)
    requires 0 <= p < |table| && e in table[p].extensions
    ensures Listers(table, e) >= 1
    decreases |table|
  {
    var n := |table| - 1;
    if p < n {
      assert table[..n][p] == table[p];
      ListersOne(table[..n], e, p);
    }
  }

  /** `find_duplicates` reports nothing exactly when no two entries share
      an extension (as written). */
  lemma NoDuplicatesIffDisjoint(table: seq<Entry>, order: seq<seq<string>>)
    requires Enumerates(table, order)
    ensures DuplicatesOf(Sightings(table, order)) == [] <==>
            forall p, q :: 0 <= p < q < |table| ==> table[p].extensions !! table[q].extensions
  {
    var ds := DuplicatesOf(Sightings(table, order));
    if ds != [] {
      DuplicatesSound(table, order);
      assert FoundIn(table, ds[0]);
    }
    if !forall p, q :: 0 <= p < q < |table| ==> table[p].extensions !! table[q].extensions {
      var p, q :| 0 <= p < q < |table| && !(table[p].extensions !! table[q].extensions);
      var e :| e in table[p].extensions && e in table[q].extensions;
      ListersTwo(table, e, p, q);
      DuplicateCount(table, order, e);
    }
  }

  /** `all_extensions` keeps the FIRST category listing an extension: an
      extension is entered exactly when some entry lists it, and then under
      the category of the earliest such entry. */
  lemma FirstOwnerIsFirstLister(table: seq<Entry>, order: seq<seq<string>>, e: string, p: int)
    requires Enumerates(table, order)
    requires 0 <= p < |table| && e in table[p].extensions
    requires forall r :: 0 <= r < p ==> e !in table[r].extensions
    ensures e in FirstOwners(Sightings(table, order))
    ensures FirstOwners(Sightings(table, order))[e] == table[p].category
  {
    var s := Sightings(table, order);
    SightingsFaithful(table, order);
    SightingsOrdered(table, order);
    SightingsCover(table, order);
    var j :| 0 <= j < |s| && s[j].entry == p && s[j].ext == e;
    var i := FirstSighting(s, e, j);
    assert s[i].entry == p;
    FirstOwnersFirst(s, i);
  }

  /** An extension no entry lists is never entered. */
  lemma UnlistedNotEntered(table: seq<Entry>, order: seq<seq<string>>, e: string)
    requires Enumerates(table, order)
    requires forall r :: 0 <= r < |table| ==> e !in table[r].extensions
    ensures e !in FirstOwners(Sightings(table, order))
  {
    var s := Sightings(table, order);
    SightingsFaithful(table, order);
    FirstOwnersKeys(s, e);
  }

  /** The script and the organizer pair up: for an extension spelled in
      lower case wherever it is listed, the script keeps the first entry
      listing it while the organizer's map keeps the last. */
  lemma FirstOwnerVersusLastWins(table: seq<Entry>, order: seq<seq<string>>, e: string, p: int, q: int)
    requires Enumerates(table, order)
    requires IsLower(e)
    requires forall r, x :: 0 <= r < |table| && x in table[r].extensions && Lower(x) == e ==> x == e
    requires 0 <= p < |table| && e in table[p].extensions
    requires forall r :: 0 <= r < p ==> e !in table[r].extensions
    requires 0 <= q < |table| && e in table[q].extensions
    requires forall r :: q < r < |table| ==> e !in table[r].extensions
    ensures e in FirstOwners(Sightings(table, order))
    ensures FirstOwners(Sightings(table, order))[e] == table[p].category
    ensures e in ExtensionMapOf(table) && ExtensionMapOf(table)[e] == table[q].category
  {
    FirstOwnerIsFirstLister(table, order, e, p);
    LowerIsLower(e);
    assert ListsLowered(table, q, e);
    ExtensionMapLastWins(table, e, q);
  }

  /** The script compares extensions as written: a table listing `.m`
      under `Scripts` and `.M` under `Code` draws no report, although the
      organizer's map, which lower-cases, merges the two under `Code`. */
  lemma CaseSensitiveComparison()
    ensures var table := [Entry(Scripts, {".m"}), Entry(Code, {".M"})];
            && DuplicatesOf(Sightings(table, [[".m"], [".M"]])) == []
            && ".m" in ExtensionMapOf(table) && ExtensionMapOf(table)[".m"] == Code
  {
    var table := [Entry(Scripts, {".m"}), Entry(Code, {".M"})];
    var order := [[".m"], [".M"]];
    assert Enumerates(table, order);
    assert ".m" != ".M";
    NoDuplicatesIffDisjoint(table, order);
    assert Lower(".M") == ".m";
    assert ListsLowered(table, 1, ".m");
    ExtensionMapLastWins(table, ".m", 1);
  }
}
