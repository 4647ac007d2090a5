/**
 Diff compaction: hunks are validated, sorted, checked for contradictions, filtered by path and stripped of
 duplicates.
 */
module DiffCompaction {
  import opened Prelude
  import opened TextOrder
  import opened Sorting

  datatype Hunk = Hunk(
    id: string, path: string, oldStart: nat, oldCount: nat, newStart: nat, newCount: nat, patchHash: string,
    body: seq<string>, critical: bool, priority: nat)

  datatype Coordinates = Coordinates(path: string, oldStart: nat, oldCount: nat, newStart: nat, newCount: nat)

  function CoordinatesOf(h: Hunk): Coordinates {
    Coordinates(h.path, h.oldStart, h.oldCount, h.newStart, h.newCount)
  }

  /** Same place, same patch. */
  predicate Duplicates(a: Hunk, b: Hunk) {
    CoordinatesOf(a) == CoordinatesOf(b) && a.patchHash == b.patchHash
  }

  /** Same place, different patches. */
  predicate Contradict(a: Hunk, b: Hunk) {
    CoordinatesOf(a) == CoordinatesOf(b) && a.patchHash != b.patchHash
  }

  // ---- Bodies ----

  predicate Starts(line: string, c: char) {
    line != "" && line[0] == c
  }

  predicate IsNote(line: string) {
    line == "" || "\\ No newline" <= line
  }

  predicate IsBodyLine(line: string) {
    IsNote(line) || Starts(line, ' ') || Starts(line, '-') || Starts(line, '+')
  }

  /** The lines that count on a side: context lines, and the removed or the added ones. */
  function Count(lines: seq<string>, side: char): nat {
    if lines == [] then 0
    else
      var last := lines[|lines| - 1];
      Count(lines[..|lines| - 1], side) + if !IsNote(last) && (Starts(last, ' ') || Starts(last, side)) then 1 else 0
  }

  /** `None` when a line belongs to no hunk body. */
  method BodyCounts(lines: seq<string>) returns (counts: Option<(nat, nat)>)
    ensures counts.Some? <==> forall i | 0 <= i < |lines| :: IsBodyLine(lines[i])
    ensures counts.Some? ==> counts.value == (Count(lines, '-'), Count(lines, '+'))
  {
    var oldCount, newCount := 0, 0;
    for i := 0 to |lines|
      invariant forall j | 0 <= j < i :: IsBodyLine(lines[j])
      invariant oldCount == Count(lines[..i], '-') && newCount == Count(lines[..i], '+')
    {
      var line := lines[i];
      assert lines[..i + 1][..i] == lines[..i] && lines[..i + 1][i] == line;
      if IsNote(line) {
        continue;
      }
      if Starts(line, ' ') || Starts(line, '-') {
        oldCount := oldCount + 1;
      }
      if Starts(line, ' ') || Starts(line, '+') {
        newCount := newCount + 1;
      }
      if !Starts(line, ' ') && !Starts(line, '-') && !Starts(line, '+') {
        return None;
      }
    }
    assert lines[..|lines|] == lines;
    counts := Some((oldCount, newCount));
  }

  /** A path is normalised; a patch is, hashes to the hunk's hash, and its header states the hunk's ranges. */
  datatype Tests = Tests(normalPath: string -> bool, soundPatch: Hunk -> bool)

  predicate ValidHunk(tests: Tests, h: Hunk) {
    && tests.normalPath(h.path) && tests.soundPatch(h) && (forall i | 0 <= i < |h.body| :: IsBodyLine(h.body[i]))
    && Count(h.body, '-') == h.oldCount && Count(h.body, '+') == h.newCount
  }

  // ---- Order ----

  predicate Less(a: Hunk, b: Hunk) {
    if a.path != b.path then IdLess(a.path, b.path)
    else if a.oldStart != b.oldStart then a.oldStart < b.oldStart
    else if a.oldCount != b.oldCount then a.oldCount < b.oldCount
    else if a.newStart != b.newStart then a.newStart < b.newStart
    else if a.newCount != b.newCount then a.newCount < b.newCount
    else if a.patchHash != b.patchHash then IdLess(a.patchHash, b.patchHash)
    else IdLess(a.id, b.id)
  }

  lemma LessTotal(a: Hunk, b: Hunk)
    ensures Less(a, b) || Less(b, a) || a.id == b.id
    ensures !(Less(a, b) && Less(b, a)) && !Less(a, a)
  {
    IdLessTotal(a.path, b.path);
    IdLessTotal(a.patchHash, b.patchHash);
    IdLessTotal(a.id, b.id);
    IdLessTotal(a.id, a.id);
  }

  lemma LessTransitive(a: Hunk, b: Hunk, c: Hunk)
    requires Less(a, b) && Less(b, c)
    ensures Less(a, c)
  {
    if IdLess(a.path, b.path) && IdLess(b.path, c.path) { IdLessTransitive(a.path, b.path, c.path); }
    if IdLess(a.patchHash, b.patchHash) && IdLess(b.patchHash, c.patchHash) {
      IdLessTransitive(a.patchHash, b.patchHash, c.patchHash);
    }
    if IdLess(a.id, b.id) && IdLess(b.id, c.id) { IdLessTransitive(a.id, b.id, c.id); }
    IdLessTotal(a.path, b.path);
    IdLessTotal(b.path, c.path);
    IdLessTotal(a.path, c.path);
    IdLessTotal(a.patchHash, b.patchHash);
    IdLessTotal(a.patchHash, c.patchHash);
  }

  predicate DistinctIds(hunks: seq<Hunk>) {
    forall i, j | 0 <= i < j < |hunks| :: hunks[i].id != hunks[j].id
  }

  lemma LessIsStrict()
    ensures StrictOrder(Less)
  {
    forall a
      ensures !Less(a, a)
    {
      LessTotal(a, a);
    }
    forall a, b, c | Less(a, b) && Less(b, c)
      ensures Less(a, c)
    {
      LessTransitive(a, b, c);
    }
  }

  lemma HunksAreComparable(hunks: seq<Hunk>)
    requires DistinctIds(hunks)
    ensures Comparable(hunks, Less)
  {
    forall i, j | 0 <= i < j < |hunks|
      ensures Less(hunks[i], hunks[j]) || Less(hunks[j], hunks[i])
    {
      LessTotal(hunks[i], hunks[j]);
    }
  }

  lemma HunksAreSorted(hunks: seq<Hunk>)
    requires DistinctIds(hunks)
    ensures Ascending(Sorted(hunks, Less), Less) && multiset(Sorted(hunks, Less)) == multiset(hunks)
  {
    LessIsStrict();
    HunksAreComparable(hunks);
    SortedIs(hunks, Less);
  }

  // ---- Compaction ----

  datatype Sifted = Sifted(selected: seq<Hunk>, excluded: seq<Hunk>, deduplicated: seq<Hunk>)

  predicate Contradictory(hunks: seq<Hunk>) {
    exists i, j | 0 <= i < |hunks| && 0 <= j < |hunks| :: Contradict(hunks[i], hunks[j])
  }

  predicate AnyDuplicates(hunks: seq<Hunk>, h: Hunk) {
    exists k | 0 <= k < |hunks| :: Duplicates(hunks[k], h)
  }

  /** The hunks taken one after another: selected, of another path, or the same as one selected before. */
  function Sift(sorted: seq<Hunk>, relevant: set<string>): Sifted {
    if sorted == [] then Sifted([], [], [])
    else
      var before := Sift(sorted[..|sorted| - 1], relevant);
      var h := sorted[|sorted| - 1];
      if h.path !in relevant then before.(excluded := before.excluded + [h])
      else if AnyDuplicates(before.selected, h) then before.(deduplicated := before.deduplicated + [h])
      else before.(selected := before.selected + [h])
  }

  /** `None` stands for the refusal of the whole diff. */
  function Compact(tests: Tests, hunks: seq<Hunk>, relevant: set<string>): Option<Sifted> {
    if exists path | path in relevant :: !tests.normalPath(path) then None
    else if (exists i | 0 <= i < |hunks| :: !ValidHunk(tests, hunks[i])) || Contradictory(hunks) then None
    else Some(Sift(Sorted(hunks, Less), relevant))
  }

  predicate NoDuplicates(hunks: seq<Hunk>) {
    forall i, j | 0 <= i < j < |hunks| :: !Duplicates(hunks[i], hunks[j])
  }

  lemma {:induction false} SiftDivides(sorted: seq<Hunk>, relevant: set<string>)
    ensures var r := Sift(sorted, relevant);
            multiset(sorted) == multiset(r.selected) + multiset(r.excluded) + multiset(r.deduplicated)
  {
    if sorted != [] {
      var front, last := sorted[..|sorted| - 1], sorted[|sorted| - 1];
      SiftDivides(front, relevant);
      assert sorted == front + [last];
      var before := Sift(front, relevant);
      if last.path !in relevant {
        assert Sift(sorted, relevant) == before.(excluded := before.excluded + [last]);
      } else if AnyDuplicates(before.selected, last) {
        assert Sift(sorted, relevant) == before.(deduplicated := before.deduplicated + [last]);
      }
    }
  }

  lemma {:induction false} SiftSelects(sorted: seq<Hunk>, relevant: set<string>)
    ensures var r := Sift(sorted, relevant);
            && (forall i | 0 <= i < |r.selected| :: r.selected[i] in sorted && r.selected[i].path in relevant)
            && NoDuplicates(r.selected)
            && (forall i | 0 <= i < |r.excluded| :: r.excluded[i].path !in relevant)
  {
    if sorted != [] {
      SiftSelects(sorted[..|sorted| - 1], relevant);
      assert sorted == sorted[..|sorted| - 1] + [sorted[|sorted| - 1]];
    }
  }

  /** Nothing is dropped as a duplicate without a selected hunk it duplicates. */
  predicate Represented(r: Sifted) {
    forall i | 0 <= i < |r.deduplicated| :: AnyDuplicates(r.selected, r.deduplicated[i])
  }

  lemma {:induction false} SiftDropsDuplicates(sorted: seq<Hunk>, relevant: set<string>)
    ensures Represented(Sift(sorted, relevant))
  {
    if sorted != [] {
      var front := sorted[..|sorted| - 1];
      var before, r := Sift(front, relevant), Sift(sorted, relevant);
      SiftDropsDuplicates(front, relevant);
      forall i | 0 <= i < |r.deduplicated|
        ensures AnyDuplicates(r.selected, r.deduplicated[i])
      {
        if i < |before.deduplicated| {
          assert r.deduplicated[i] == before.deduplicated[i];
          assert AnyDuplicates(before.selected, before.deduplicated[i]);
        } else {
          assert r.deduplicated == before.deduplicated + [sorted[|sorted| - 1]];
        }
        var k :| 0 <= k < |before.selected| && Duplicates(before.selected[k], r.deduplicated[i]);
        assert r.selected[k] == before.selected[k];
      }
    }
  }

  lemma {:induction false} SiftKeepsOrder(sorted: seq<Hunk>, relevant: set<string>)
    requires Ascending(sorted, Less)
    ensures Ascending(Sift(sorted, relevant).selected, Less)
  {
    if sorted != [] {
      var front := sorted[..|sorted| - 1];
      SiftKeepsOrder(front, relevant);
      SiftSelects(front, relevant);
      forall i | 0 <= i < |Sift(front, relevant).selected|
        ensures Less(Sift(front, relevant).selected[i], sorted[|sorted| - 1])
      {
        var k :| 0 <= k < |front| && front[k] == Sift(front, relevant).selected[i];
        assert Less(sorted[k], sorted[|sorted| - 1]);
      }
    }
  }

  predicate DistinctCoordinates(hunks: seq<Hunk>) {
    forall i, j | 0 <= i < j < |hunks| :: CoordinatesOf(hunks[i]) != CoordinatesOf(hunks[j])
  }

  /**
   A compaction divides the hunks into selected, excluded and duplicates; the selected ones are relevant, in order
   and at different places, and what was dropped as a duplicate is represented.
   */
  lemma CompactionIsSound(tests: Tests, hunks: seq<Hunk>, relevant: set<string>)
    requires DistinctIds(hunks) && Compact(tests, hunks, relevant).Some?
    ensures var r := Compact(tests, hunks, relevant).value;
            && multiset(hunks) == multiset(r.selected) + multiset(r.excluded) + multiset(r.deduplicated)
            && Ascending(r.selected, Less) && DistinctCoordinates(r.selected)
            && (forall i | 0 <= i < |r.selected| :: r.selected[i].path in relevant)
            && (forall i | 0 <= i < |r.excluded| :: r.excluded[i].path !in relevant)
            && Represented(r)
  {
    var sorted := Sorted(hunks, Less);
    HunksAreSorted(hunks);
    SiftDivides(sorted, relevant);
    SiftSelects(sorted, relevant);
    SiftDropsDuplicates(sorted, relevant);
    SiftKeepsOrder(sorted, relevant);
    SelectedDoNotContradict(hunks, sorted, Sift(sorted, relevant).selected);
  }

  lemma SelectedDoNotContradict(hunks: seq<Hunk>, sorted: seq<Hunk>, selected: seq<Hunk>)
    requires multiset(sorted) == multiset(hunks) && !Contradictory(hunks) && NoDuplicates(selected)
    requires forall i | 0 <= i < |selected| :: selected[i] in sorted
    ensures DistinctCoordinates(selected)
  {
    forall i, j | 0 <= i < j < |selected|
      ensures CoordinatesOf(selected[i]) != CoordinatesOf(selected[j])
    {
      assert selected[i] in multiset(hunks) && selected[j] in multiset(hunks);
      var k :| 0 <= k < |hunks| && hunks[k] == selected[i];
      var l :| 0 <= l < |hunks| && hunks[l] == selected[j];
      assert !Contradict(hunks[k], hunks[l]) && !Duplicates(selected[i], selected[j]);
    }
  }

  /** The order in which the hunks come does not matter. */
  lemma CompactionIgnoresOrder(tests: Tests, a: seq<Hunk>, b: seq<Hunk>, relevant: set<string>)
    requires DistinctIds(a) && DistinctIds(b) && multiset(a) == multiset(b)
    ensures Compact(tests, a, relevant) == Compact(tests, b, relevant)
  {
    LessIsStrict();
    HunksAreComparable(a);
    HunksAreComparable(b);
    SortedIgnoresOrder(a, b, Less);
    SameVerdict(tests, a, b);
    SameVerdict(tests, b, a);
  }

  lemma SameVerdict(tests: Tests, a: seq<Hunk>, b: seq<Hunk>)
    requires multiset(a) == multiset(b)
    ensures Contradictory(a) ==> Contradictory(b)
    ensures (exists i | 0 <= i < |a| :: !ValidHunk(tests, a[i])) ==> exists i | 0 <= i < |b| :: !ValidHunk(tests, b[i])
  {
    PartIsFine(tests, b, a, multiset{});
  }

  lemma {:induction false} SiftKeepsAll(hunks: seq<Hunk>, relevant: set<string>)
    requires NoDuplicates(hunks) && forall i | 0 <= i < |hunks| :: hunks[i].path in relevant
    ensures Sift(hunks, relevant) == Sifted(hunks, [], [])
  {
    if hunks != [] {
      SiftKeepsAll(hunks[..|hunks| - 1], relevant);
      assert hunks == hunks[..|hunks| - 1] + [hunks[|hunks| - 1]];
    }
  }

  /** Compacting what was selected again changes nothing. */
  lemma CompactionIsIdempotent(tests: Tests, hunks: seq<Hunk>, relevant: set<string>)
    requires DistinctIds(hunks) && Compact(tests, hunks, relevant).Some?
    ensures var selected := Compact(tests, hunks, relevant).value.selected;
            Compact(tests, selected, relevant) == Some(Sifted(selected, [], []))
  {
    var selected := Compact(tests, hunks, relevant).value.selected;
    CompactionIsSound(tests, hunks, relevant);
    LessIsStrict();
    AscendingStays(selected, Less);
    PartIsFine(tests, hunks, selected, multiset(hunks) - multiset(selected));
    SiftKeepsAll(selected, relevant);
  }

  /** A part of valid hunks that do not contradict each other. */
  lemma PartIsFine(tests: Tests, hunks: seq<Hunk>, part: seq<Hunk>, rest: multiset<Hunk>)
    requires multiset(hunks) == multiset(part) + rest
    ensures Contradictory(part) ==> Contradictory(hunks)
    ensures (exists i | 0 <= i < |part| :: !ValidHunk(tests, part[i])) ==>
            exists i | 0 <= i < |hunks| :: !ValidHunk(tests, hunks[i])
  {
    assert forall h | h in part :: h in multiset(hunks);
    if Contradictory(part) {
      var i, j :| 0 <= i < |part| && 0 <= j < |part| && Contradict(part[i], part[j]);
      assert part[i] in multiset(hunks) && part[j] in multiset(hunks);
      var k :| 0 <= k < |hunks| && hunks[k] == part[i];
      var l :| 0 <= l < |hunks| && hunks[l] == part[j];
      assert Contradict(hunks[k], hunks[l]);
    }
    if exists i | 0 <= i < |part| :: !ValidHunk(tests, part[i]) {
      var i :| 0 <= i < |part| && !ValidHunk(tests, part[i]);
      assert part[i] in multiset(hunks);
      var k :| 0 <= k < |hunks| && hunks[k] == part[i];
      assert !ValidHunk(tests, hunks[k]);
    }
  }

  // ---- The loops ----

  method CompactDiffHunks(tests: Tests, hunks: seq<Hunk>, relevant: set<string>) returns (r: Option<Sifted>)
    requires DistinctIds(hunks)
    ensures r == Compact(tests, hunks, relevant)
  {
    if exists path | path in relevant :: !tests.normalPath(path) {
      return None;
    }
    if exists i | 0 <= i < |hunks| :: !ValidHunk(tests, hunks[i]) {
      return None;
    }
    var sorted := Sorted(hunks, Less);
    HunksAreSorted(hunks);
    SameVerdict(tests, sorted, hunks);
    SameVerdict(tests, hunks, sorted);
    var contradiction := FindContradiction(sorted);
    if contradiction {
      return None;
    }
    var sifted := SiftSorted(sorted, relevant);
    r := Some(sifted);
  }

  method FindContradiction(sorted: seq<Hunk>) returns (found: bool)
    ensures found == Contradictory(sorted)
  {
    var coordinateHashes: map<Coordinates, string> := map[];
    for i := 0 to |sorted|
      invariant forall j | 0 <= j < i :: CoordinatesOf(sorted[j]) in coordinateHashes
                                         && coordinateHashes[CoordinatesOf(sorted[j])] == sorted[j].patchHash
      invariant forall c | c in coordinateHashes :: exists j | 0 <= j < i :: CoordinatesOf(sorted[j]) == c
    {
      var coordinate := CoordinatesOf(sorted[i]);
      if coordinate in coordinateHashes && coordinateHashes[coordinate] != sorted[i].patchHash {
        var j :| 0 <= j < i && CoordinatesOf(sorted[j]) == coordinate;
        assert Contradict(sorted[j], sorted[i]);
        return true;
      }
      coordinateHashes := coordinateHashes[coordinate := sorted[i].patchHash];
    }
    found := false;
  }

  method SiftSorted(sorted: seq<Hunk>, relevant: set<string>) returns (r: Sifted)
    ensures r == Sift(sorted, relevant)
  {
    var selected, excluded, deduplicated := [], [], [];
    var selectedKeys: set<(Coordinates, string)> := {};
    for i := 0 to |sorted|
      invariant Sifted(selected, excluded, deduplicated) == Sift(sorted[..i], relevant)
      invariant forall key :: key in selectedKeys
                              <==> exists k | 0 <= k < |selected| ::
                                (CoordinatesOf(selected[k]), selected[k].patchHash) == key
    {
      var hunk := sorted[i];
      assert sorted[..i + 1][..i] == sorted[..i] && sorted[..i + 1][i] == hunk;
      var key := (CoordinatesOf(hunk), hunk.patchHash);
      assert key in selectedKeys <==> AnyDuplicates(selected, hunk);
      if hunk.path !in relevant {
        excluded := excluded + [hunk];
      } else if key in selectedKeys {
        deduplicated := deduplicated + [hunk];
      } else {
        ghost var before := selected;
        selectedKeys := selectedKeys + {key};
        selected := selected + [hunk];
        assert forall k | 0 <= k < |before| :: selected[k] == before[k];
        assert selected[|before|] == hunk;
      }
    }
    assert sorted[..|sorted|] == sorted;
    r := Sifted(selected, excluded, deduplicated);
  }

  // ---- What is dropped ----

  /** Every relevant hunk is selected, or has a duplicate that is. */
  lemma {:induction false} SiftRepresents(sorted: seq<Hunk>, relevant: set<string>, i: nat)
    requires i < |sorted| && sorted[i].path in relevant
    ensures AnyDuplicates(Sift(sorted, relevant).selected, sorted[i])
  {
    var front := sorted[..|sorted| - 1];
    var before, after := Sift(front, relevant).selected, Sift(sorted, relevant).selected;
    if i < |front| {
      SiftRepresents(front, relevant, i);
      assert front[i] == sorted[i];
    }
    if AnyDuplicates(before, sorted[i]) {
      var k :| 0 <= k < |before| && Duplicates(before[k], sorted[i]);
      assert after[k] == before[k];
    } else {
      assert after[|before|] == sorted[i];
    }
  }

  predicate DuplicateBefore(sorted: seq<Hunk>, j: nat)
    requires j < |sorted|
  {
    exists i | 0 <= i < j :: Duplicates(sorted[i], sorted[j])
  }

  /** The last hunk duplicates a selected one exactly when it duplicates one before it. */
  lemma LastDuplicates(sorted: seq<Hunk>, relevant: set<string>)
    requires sorted != [] && sorted[|sorted| - 1].path in relevant
    ensures AnyDuplicates(Sift(sorted[..|sorted| - 1], relevant).selected, sorted[|sorted| - 1])
            <==> DuplicateBefore(sorted, |sorted| - 1)
  {
    var front, last := sorted[..|sorted| - 1], sorted[|sorted| - 1];
    var selected := Sift(front, relevant).selected;
    SiftSelects(front, relevant);
    if AnyDuplicates(selected, last) {
      var k :| 0 <= k < |selected| && Duplicates(selected[k], last);
      var i :| 0 <= i < |front| && front[i] == selected[k];
      assert Duplicates(sorted[i], last);
    }
    if DuplicateBefore(sorted, |sorted| - 1) {
      var i :| 0 <= i < |sorted| - 1 && Duplicates(sorted[i], last);
      SiftRepresents(front, relevant, i);
      var k :| 0 <= k < |selected| && Duplicates(selected[k], front[i]);
      assert Duplicates(selected[k], last);
    }
  }

  /** Only the last hunk of those in order can be dropped as the last one. */
  lemma LastIsNew(sorted: seq<Hunk>, relevant: set<string>)
    requires sorted != [] && Ascending(sorted, Less)
    ensures sorted[|sorted| - 1] !in Sift(sorted[..|sorted| - 1], relevant).deduplicated
    ensures forall j | 0 <= j < |sorted| - 1 :: sorted[j] != sorted[|sorted| - 1]
  {
    var front, last := sorted[..|sorted| - 1], sorted[|sorted| - 1];
    LessIsStrict();
    forall j | 0 <= j < |front|
      ensures front[j] != last
    {
      assert Less(sorted[j], last);
    }
    SiftDivides(front, relevant);
    assert forall h | h in Sift(front, relevant).deduplicated :: h in multiset(front);
  }

  /** Among hunks in order, one is dropped exactly when it is relevant and duplicates one before it. */
  lemma {:induction false} SiftDropsIff(sorted: seq<Hunk>, relevant: set<string>, j: nat)
    requires j < |sorted| && Ascending(sorted, Less)
    ensures sorted[j] in Sift(sorted, relevant).deduplicated <==>
            sorted[j].path in relevant && DuplicateBefore(sorted, j)
  {
    var front, last := sorted[..|sorted| - 1], sorted[|sorted| - 1];
    LastIsNew(sorted, relevant);
    if j < |front| {
      SiftDropsIff(front, relevant, j);
      assert forall i | 0 <= i <= j :: front[i] == sorted[i];
    } else if last.path in relevant {
      LastDuplicates(sorted, relevant);
    }
  }

  predicate DuplicateWithLesserId(hunks: seq<Hunk>, j: nat)
    requires j < |hunks|
  {
    exists i | 0 <= i < |hunks| :: Duplicates(hunks[i], hunks[j]) && IdLess(hunks[i].id, hunks[j].id)
  }

  /** Duplicates stand in the order of their identifiers. */
  lemma DuplicatesBeforeById(hunks: seq<Hunk>, sorted: seq<Hunk>, j: nat, k: nat)
    requires multiset(sorted) == multiset(hunks) && Ascending(sorted, Less)
    requires j < |hunks| && k < |sorted| && sorted[k] == hunks[j]
    ensures DuplicateBefore(sorted, k) <==> DuplicateWithLesserId(hunks, j)
  {
    if DuplicateBefore(sorted, k) {
      var l :| 0 <= l < k && Duplicates(sorted[l], sorted[k]);
      assert Less(sorted[l], sorted[k]) && sorted[l] in multiset(hunks);
      var i :| 0 <= i < |hunks| && hunks[i] == sorted[l];
      assert Duplicates(hunks[i], hunks[j]) && IdLess(hunks[i].id, hunks[j].id);
    }
    if DuplicateWithLesserId(hunks, j) {
      var i :| 0 <= i < |hunks| && Duplicates(hunks[i], hunks[j]) && IdLess(hunks[i].id, hunks[j].id);
      assert hunks[i] in multiset(sorted) && Less(hunks[i], hunks[j]);
      var l :| 0 <= l < |sorted| && sorted[l] == hunks[i];
      LessTotal(sorted[l], sorted[k]);
      assert !Less(sorted[k], sorted[l]);
      assert l < k;
      assert Duplicates(sorted[l], sorted[k]);
    }
  }

  /**
   A hunk is dropped as a duplicate exactly when it is relevant and another one with the same place and patch has a
   lesser identifier, whether or not it is critical.
   */
  lemma HunkIsDroppedIff(tests: Tests, hunks: seq<Hunk>, relevant: set<string>, j: nat)
    requires DistinctIds(hunks) && Compact(tests, hunks, relevant).Some? && j < |hunks|
    ensures hunks[j] in Compact(tests, hunks, relevant).value.deduplicated
            <==> hunks[j].path in relevant
                 && exists i | 0 <= i < |hunks| :: Duplicates(hunks[i], hunks[j]) && IdLess(hunks[i].id, hunks[j].id)
  {
    var sorted := Sorted(hunks, Less);
    HunksAreSorted(hunks);
    assert hunks[j] in multiset(sorted);
    var k :| 0 <= k < |sorted| && sorted[k] == hunks[j];
    SiftDropsIff(sorted, relevant, k);
    DuplicatesBeforeById(hunks, sorted, j, k);
  }

  /** The first of the duplicates has none with a lesser identifier. */
  predicate IsFirstDuplicate(hunks: seq<Hunk>, i: nat)
    requires i < |hunks|
  {
    forall k | 0 <= k < |hunks| && Duplicates(hunks[k], hunks[i]) :: !IdLess(hunks[k].id, hunks[i].id)
  }

  /** All critical hunks are kept exactly when every relevant one of them is the first of its duplicates. */
  lemma CriticalHunksAreKeptIff(tests: Tests, hunks: seq<Hunk>, relevant: set<string>)
    requires DistinctIds(hunks) && Compact(tests, hunks, relevant).Some?
    ensures (forall h | h in Compact(tests, hunks, relevant).value.deduplicated :: !h.critical)
            <==> forall j | 0 <= j < |hunks| && hunks[j].critical && hunks[j].path in relevant ::
              IsFirstDuplicate(hunks, j)
  {
    var r := Compact(tests, hunks, relevant).value;
    CompactionIsSound(tests, hunks, relevant);
    forall j | 0 <= j < |hunks|
      ensures hunks[j] in r.deduplicated <==> hunks[j].path in relevant && !IsFirstDuplicate(hunks, j)
    {
      HunkIsDroppedIff(tests, hunks, relevant, j);
    }
    forall h | h in r.deduplicated
      ensures exists j :: 0 <= j < |hunks| && hunks[j] == h
    {
      assert h in multiset(hunks);
    }
  }

  /** Two hunks at the same place with the same patch; the second one is critical. */
  const PLAIN: Hunk := Hunk("a", "p", 1, 1, 1, 1, "x", [" "], false, 0)
  const CRITICAL: Hunk := Hunk("b", "p", 1, 1, 1, 1, "x", [" "], true, 0)

  /** An input for which a critical hunk is dropped. */
  lemma CriticalHunkIsDropped(tests: Tests)
    requires tests.normalPath("p") && tests.soundPatch(PLAIN) && tests.soundPatch(CRITICAL)
    ensures Compact(tests, [PLAIN, CRITICAL], {"p"}).Some?
    ensures CRITICAL in Compact(tests, [PLAIN, CRITICAL], {"p"}).value.deduplicated
  {
    var hunks := [PLAIN, CRITICAL];
    assert Count([" "], '-') == 1 && Count([" "], '+') == 1 by {
      assert [" "][..0] == [];
    }
    assert ValidHunk(tests, PLAIN) && ValidHunk(tests, CRITICAL);
    assert forall i | 0 <= i < |hunks| :: ValidHunk(tests, hunks[i]) && hunks[i].patchHash == "x";
    assert !Contradictory(hunks);
    assert IdLess("a", "b") && Duplicates(hunks[0], hunks[1]);
    HunkIsDroppedIff(tests, hunks, {"p"}, 1);
  }
}
