/**
 The integrity of a context: data classes, paths, provenance, hashes, ranges, redactions and forbidden texts, and the
 normalisation of line ends.
 */
module ContextIntegrity {
  import opened Prelude
  import opened Sorting
  import Diffs = DiffCompaction
  import Errors = ErrorCompaction

  type DataClass = Errors.DataClass

  datatype Kind = Signature | Implementation | TargetedTest | Reference | FileRange
  {
    function Rank(): nat {
      match this
      case Signature => 0
      case Implementation => 1
      case TargetedTest => 2
      case Reference => 3
      case FileRange => 4
    }
  }

  /** `evidenced`: redacted, with the hash of the evidence. */
  datatype Excerpt = Excerpt(
    id: string, kind: Kind, path: string, startLine: nat, endLine: nat, symbol: Option<string>, content: string,
    contentHash: string, dataClass: DataClass, evidenced: bool, critical: bool, priority: nat)

  datatype Material = Material(
    excerpts: seq<Excerpt>, hunks: seq<Diffs.Hunk>, diagnostics: seq<Errors.Diagnostic>)

  /**
   What does not change with the material: texts of the brief and of the policy, the data class of the route, whether
   the policy has a rule for sensitive data and whether that rule authorises this route, and the scope.
   */
  datatype Request = Request(
    texts: seq<string>, routeClass: DataClass, hasSensitiveRule: bool, authorized: bool, relevant: set<string>,
    symbols: set<string>)

  /**
   What is left abstract: line ends, hashes, paths, forbidden texts, and the parts of hunks that compaction ignores.
   */
  datatype Checks = Checks(
    normal: string -> string, hash: string -> string, lines: string -> nat, tests: Diffs.Tests,
    normalBody: Diffs.Hunk -> seq<string>, hunkHashed: Diffs.Hunk -> bool, hunkText: Diffs.Hunk -> string,
    hunkClass: Diffs.Hunk -> DataClass, hunkEvidenced: Diffs.Hunk -> bool,
    diagnosticEvidenced: Errors.Diagnostic -> bool, marked: string -> bool, indicating: string -> bool)

  datatype Reason =
    | SecretDenied | SensitiveDenied | PathInvalid | ProvenanceInvalid | HashMismatch | RangeInvalid | MarkerDenied
    | IndicatorFound

  // ---- Single items ----

  predicate RedactionAllowed(q: Request, dataClass: DataClass, evidenced: bool) {
    dataClass.Sensitive? ==> q.authorized && evidenced
  }

  predicate InScope(q: Request, e: Excerpt) {
    e.path in q.relevant && (e.symbol.Some? ==> e.symbol.value in q.symbols)
  }

  predicate HasHash(c: Checks, e: Excerpt) { c.hash(c.normal(e.content)) == e.contentHash }

  predicate InRange(c: Checks, e: Excerpt) { c.lines(c.normal(e.content)) <= e.endLine - e.startLine + 1 }

  /** Different contents at the same place. */
  predicate Conflict(a: Excerpt, b: Excerpt) {
    a.path == b.path && a.startLine == b.startLine && a.endLine == b.endLine && a.contentHash != b.contentHash
  }

  predicate Conflicts(before: seq<Excerpt>, e: Excerpt) { exists i | 0 <= i < |before| :: Conflict(before[i], e) }

  function FaultOf(c: Checks, q: Request, conflict: bool, e: Excerpt): Option<Reason> {
    if !InScope(q, e) then Some(ProvenanceInvalid)
    else if !HasHash(c, e) then Some(HashMismatch)
    else if !InRange(c, e) then Some(RangeInvalid)
    else if conflict then Some(HashMismatch)
    else if !RedactionAllowed(q, e.dataClass, e.evidenced) then Some(SensitiveDenied)
    else None
  }

  /** What is wrong with an excerpt, after those before it. */
  function ExcerptFault(c: Checks, q: Request, before: seq<Excerpt>, e: Excerpt): Option<Reason> {
    FaultOf(c, q, Conflicts(before, e), e)
  }

  function HunkFault(c: Checks, q: Request, h: Diffs.Hunk): Option<Reason> {
    if !c.hunkHashed(h) then Some(HashMismatch)
    else if !RedactionAllowed(q, c.hunkClass(h), c.hunkEvidenced(h)) then Some(SensitiveDenied)
    else None
  }

  function DiagnosticFault(c: Checks, q: Request, d: Errors.Diagnostic): Option<Reason> {
    if d.path.Some? && d.path.value !in q.relevant then Some(ProvenanceInvalid)
    else if !RedactionAllowed(q, d.dataClass, c.diagnosticEvidenced(d)) then Some(SensitiveDenied)
    else None
  }

  // ---- The verdict ----

  function ExcerptsFault(c: Checks, q: Request, excerpts: seq<Excerpt>): Option<Reason> {
    if excerpts == [] then None
    else
      var before := excerpts[..|excerpts| - 1];
      match ExcerptsFault(c, q, before)
      case Some(reason) => Some(reason)
      case None => ExcerptFault(c, q, before, excerpts[|excerpts| - 1])
  }

  /** The first fault in a list. */
  function FirstFault<T>(items: seq<T>, fault: T -> Option<Reason>): Option<Reason> {
    if items == [] then None
    else
      match FirstFault(items[..|items| - 1], fault)
      case Some(reason) => Some(reason)
      case None => fault(items[|items| - 1])
  }

  function HunkFaults(c: Checks, q: Request): Diffs.Hunk -> Option<Reason> {
    (h: Diffs.Hunk) => HunkFault(c, q, h)
  }

  function DiagnosticFaults(c: Checks, q: Request): Errors.Diagnostic -> Option<Reason> {
    (d: Errors.Diagnostic) => DiagnosticFault(c, q, d)
  }

  predicate HasClass(c: Checks, q: Request, m: Material, dataClass: DataClass) {
    || q.routeClass == dataClass
    || (exists i | 0 <= i < |m.excerpts| :: m.excerpts[i].dataClass == dataClass)
    || (exists i | 0 <= i < |m.hunks| :: c.hunkClass(m.hunks[i]) == dataClass)
    || (exists i | 0 <= i < |m.diagnostics| :: m.diagnostics[i].dataClass == dataClass)
  }

  predicate PathsAreNormal(c: Checks, q: Request, m: Material) {
    && (forall path | path in q.relevant :: c.tests.normalPath(path))
    && (forall i | 0 <= i < |m.excerpts| :: c.tests.normalPath(m.excerpts[i].path))
    && (forall i | 0 <= i < |m.hunks| :: c.tests.normalPath(m.hunks[i].path))
    && (forall i | 0 <= i < |m.diagnostics| :: m.diagnostics[i].path.Some? ==>
        c.tests.normalPath(m.diagnostics[i].path.value))
  }

  predicate Says(c: Checks, d: Errors.Diagnostic, bad: string -> bool) {
    bad(c.normal(d.message)) || exists i | 0 <= i < |d.frames| :: bad(c.normal(d.frames[i]))
  }

  predicate AnyText(c: Checks, q: Request, m: Material, bad: string -> bool) {
    || (exists i | 0 <= i < |q.texts| :: bad(c.normal(q.texts[i])))
    || (exists i | 0 <= i < |m.excerpts| :: bad(c.normal(m.excerpts[i].content)))
    || (exists i | 0 <= i < |m.hunks| :: bad(c.normal(c.hunkText(m.hunks[i]))))
    || (exists i | 0 <= i < |m.diagnostics| :: Says(c, m.diagnostics[i], bad))
  }

  /** Why the context is refused, or nothing. */
  function Verdict(c: Checks, q: Request, m: Material): Option<Reason> {
    if HasClass(c, q, m, Errors.Secret) then Some(SecretDenied)
    else if HasClass(c, q, m, Errors.Sensitive) && !q.hasSensitiveRule then Some(SensitiveDenied)
    else if !PathsAreNormal(c, q, m) then Some(PathInvalid)
    else if ExcerptsFault(c, q, m.excerpts).Some? then ExcerptsFault(c, q, m.excerpts)
    else if FirstFault(m.hunks, HunkFaults(c, q)).Some? then FirstFault(m.hunks, HunkFaults(c, q))
    else if FirstFault(m.diagnostics, DiagnosticFaults(c, q)).Some? then
      FirstFault(m.diagnostics, DiagnosticFaults(c, q))
    else if AnyText(c, q, m, c.marked) then Some(MarkerDenied)
    else if AnyText(c, q, m, c.indicating) then Some(IndicatorFound)
    else None
  }

  function NormalExcerpt(c: Checks): Excerpt -> Excerpt {
    (e: Excerpt) => e.(content := c.normal(e.content))
  }

  function NormalHunk(c: Checks): Diffs.Hunk -> Diffs.Hunk {
    (h: Diffs.Hunk) => h.(body := c.normalBody(h))
  }

  function Normalized(c: Checks, m: Material): Material {
    Material(Mapped(m.excerpts, NormalExcerpt(c)), Mapped(m.hunks, NormalHunk(c)), m.diagnostics)
  }

  // ---- Valid contexts ----

  predicate ExcerptIsValid(c: Checks, q: Request, e: Excerpt) {
    InScope(q, e) && HasHash(c, e) && InRange(c, e) && RedactionAllowed(q, e.dataClass, e.evidenced)
  }

  predicate ExcerptsAgree(excerpts: seq<Excerpt>) {
    forall i, j | 0 <= i < |excerpts| && 0 <= j < |excerpts| :: !Conflict(excerpts[i], excerpts[j])
  }

  /** What a context must be, whatever the order of its parts. */
  predicate IsValid(c: Checks, q: Request, m: Material) {
    && !HasClass(c, q, m, Errors.Secret) && (HasClass(c, q, m, Errors.Sensitive) ==> q.hasSensitiveRule)
    && PathsAreNormal(c, q, m)
    && (forall i | 0 <= i < |m.excerpts| :: ExcerptIsValid(c, q, m.excerpts[i])) && ExcerptsAgree(m.excerpts)
    && (forall i | 0 <= i < |m.hunks| :: HunkFault(c, q, m.hunks[i]).None?)
    && (forall i | 0 <= i < |m.diagnostics| :: DiagnosticFault(c, q, m.diagnostics[i]).None?)
    && !AnyText(c, q, m, c.marked) && !AnyText(c, q, m, c.indicating)
  }

  lemma {:induction false} NoExcerptFault(c: Checks, q: Request, excerpts: seq<Excerpt>)
    ensures ExcerptsFault(c, q, excerpts).None?
            <==> (forall i | 0 <= i < |excerpts| :: ExcerptIsValid(c, q, excerpts[i])) && ExcerptsAgree(excerpts)
  {
    if excerpts != [] {
      var before, last := excerpts[..|excerpts| - 1], excerpts[|excerpts| - 1];
      NoExcerptFault(c, q, before);
      assert forall i | 0 <= i < |before| :: before[i] == excerpts[i];
      AgreeSnoc(excerpts, before, last);
    }
  }

  lemma AgreeSnoc(excerpts: seq<Excerpt>, before: seq<Excerpt>, last: Excerpt)
    requires excerpts != [] && before == excerpts[..|excerpts| - 1] && last == excerpts[|excerpts| - 1]
    ensures ExcerptsAgree(excerpts) <==> ExcerptsAgree(before) && !Conflicts(before, last)
  {
    assert forall i | 0 <= i < |before| :: before[i] == excerpts[i];
    assert forall i | 0 <= i < |before| :: Conflict(before[i], last) <==> Conflict(last, before[i]);
  }

  lemma {:induction false} NoFault<T>(items: seq<T>, fault: T -> Option<Reason>)
    ensures FirstFault(items, fault).None? <==> forall i | 0 <= i < |items| :: fault(items[i]).None?
  {
    if items != [] {
      NoFault(items[..|items| - 1], fault);
      assert forall i | 0 <= i < |items| - 1 :: items[..|items| - 1][i] == items[i];
    }
  }

  /** The checks, made one after another, pass exactly the valid contexts. */
  lemma VerdictIsExact(c: Checks, q: Request, m: Material)
    ensures Verdict(c, q, m).None? <==> IsValid(c, q, m)
  {
    NoExcerptFault(c, q, m.excerpts);
    NoFault(m.hunks, HunkFaults(c, q));
    NoFault(m.diagnostics, DiagnosticFaults(c, q));
  }

  ghost predicate SameMaterial(a: Material, b: Material) {
    && multiset(a.excerpts) == multiset(b.excerpts) && multiset(a.hunks) == multiset(b.hunks)
    && multiset(a.diagnostics) == multiset(b.diagnostics)
  }

  lemma ExcerptsStayValid(c: Checks, q: Request, a: seq<Excerpt>, b: seq<Excerpt>)
    requires multiset(a) == multiset(b)
    requires (forall i | 0 <= i < |a| :: ExcerptIsValid(c, q, a[i])) && ExcerptsAgree(a)
    ensures (forall i | 0 <= i < |b| :: ExcerptIsValid(c, q, b[i])) && ExcerptsAgree(b)
  {
    Errors.SameMembers(a, b);
    forall i, j | 0 <= i < |b| && 0 <= j < |b|
      ensures !Conflict(b[i], b[j])
    {
      var k :| 0 <= k < |a| && a[k] == b[i];
      var l :| 0 <= l < |a| && a[l] == b[j];
      assert !Conflict(a[k], a[l]);
    }
  }

  lemma ValidInAnyOrder(c: Checks, q: Request, a: Material, b: Material)
    requires SameMaterial(a, b) && IsValid(c, q, a)
    ensures IsValid(c, q, b)
  {
    ExcerptsStayValid(c, q, a.excerpts, b.excerpts);
    Errors.SameMembers(a.excerpts, b.excerpts);
    Errors.SameMembers(a.hunks, b.hunks);
    Errors.SameMembers(a.diagnostics, b.diagnostics);
  }

  /** Whether a context passes does not depend on the order of its parts. */
  lemma IntegrityIgnoresOrder(c: Checks, q: Request, a: Material, b: Material)
    requires SameMaterial(a, b)
    ensures Verdict(c, q, a).None? <==> Verdict(c, q, b).None?
    ensures SameMaterial(Normalized(c, a), Normalized(c, b))
  {
    VerdictIsExact(c, q, a);
    VerdictIsExact(c, q, b);
    if IsValid(c, q, a) { ValidInAnyOrder(c, q, a, b); }
    if IsValid(c, q, b) { ValidInAnyOrder(c, q, b, a); }
    MappedPermuted(a.excerpts, b.excerpts, NormalExcerpt(c));
    MappedPermuted(a.hunks, b.hunks, NormalHunk(c));
  }

  /** Why it does not pass may depend on the order: the first excerpt with a fault gives the reason. */
  lemma ReasonDependsOnOrder(c: Checks, q: Request, outside: Excerpt, forged: Excerpt)
    requires !InScope(q, outside) && InScope(q, forged) && !HasHash(c, forged)
    requires q.routeClass.Public? && outside.dataClass.Public? && forged.dataClass.Public?
    requires c.tests.normalPath(outside.path) && c.tests.normalPath(forged.path)
    requires forall path | path in q.relevant :: c.tests.normalPath(path)
    ensures Verdict(c, q, Material([outside, forged], [], [])) == Some(ProvenanceInvalid)
    ensures Verdict(c, q, Material([forged, outside], [], [])) == Some(HashMismatch)
  {
    FirstFaults(c, q, outside, forged);
    FirstFaults(c, q, forged, outside);
  }

  lemma FirstFaults(c: Checks, q: Request, first: Excerpt, second: Excerpt)
    requires ExcerptFault(c, q, [], first).Some?
    ensures ExcerptsFault(c, q, [first, second]) == ExcerptFault(c, q, [], first)
  {
    assert [first, second][..1] == [first] && [first][..0] == [];
    assert ExcerptsFault(c, q, []) == None;
    assert ExcerptsFault(c, q, [first]) == ExcerptFault(c, q, [], first);
  }

  // ---- The loops ----

  function Place(e: Excerpt): (string, nat, nat) { (e.path, e.startLine, e.endLine) }

  /** The map from places to the hashes of the excerpts seen. */
  ghost predicate Remembers(coordinates: map<(string, nat, nat), string>, seen: seq<Excerpt>) {
    && (forall j | 0 <= j < |seen| ::
        Place(seen[j]) in coordinates && coordinates[Place(seen[j])] == seen[j].contentHash)
    && (forall place | place in coordinates :: exists j :: 0 <= j < |seen| && Place(seen[j]) == place)
  }

  predicate Clashes(coordinates: map<(string, nat, nat), string>, e: Excerpt) {
    Place(e) in coordinates && coordinates[Place(e)] != e.contentHash
  }

  lemma ConflictIsSeen(coordinates: map<(string, nat, nat), string>, seen: seq<Excerpt>, e: Excerpt)
    requires Remembers(coordinates, seen)
    ensures Conflicts(seen, e) <==> Clashes(coordinates, e)
  {
    if Place(e) in coordinates {
      var j :| 0 <= j < |seen| && Place(seen[j]) == Place(e);
      assert Conflict(seen[j], e) <==> coordinates[Place(e)] != e.contentHash;
    }
  }

  lemma RemembersOneMore(coordinates: map<(string, nat, nat), string>, seen: seq<Excerpt>, e: Excerpt)
    requires Remembers(coordinates, seen) && !Conflicts(seen, e)
    ensures Remembers(coordinates[Place(e) := e.contentHash], seen + [e])
  {
    var all, more := seen + [e], coordinates[Place(e) := e.contentHash];
    forall j | 0 <= j < |all|
      ensures Place(all[j]) in more && more[Place(all[j])] == all[j].contentHash
    {
      if j < |seen| { assert !Conflict(seen[j], e); }
    }
    forall place | place in more
      ensures exists j :: 0 <= j < |all| && Place(all[j]) == place
    {
      if place == Place(e) {
        assert Place(all[|seen|]) == place;
      } else {
        var j :| 0 <= j < |seen| && Place(seen[j]) == place;
        assert Place(all[j]) == place;
      }
    }
  }

  method CheckExcerpt(c: Checks, q: Request, conflict: bool, e: Excerpt) returns (r: Result<Excerpt, Reason>)
    ensures r == match FaultOf(c, q, conflict, e)
                 case Some(reason) => Err(reason)
                 case None => Ok(NormalExcerpt(c)(e))
  {
    if !InScope(q, e) {
      return Err(ProvenanceInvalid);
    }
    var content := c.normal(e.content);
    if c.hash(content) != e.contentHash {
      return Err(HashMismatch);
    }
    if c.lines(content) > e.endLine - e.startLine + 1 {
      return Err(RangeInvalid);
    }
    if conflict {
      return Err(HashMismatch);
    }
    if !RedactionAllowed(q, e.dataClass, e.evidenced) {
      return Err(SensitiveDenied);
    }
    r := Ok(e.(content := content));
  }

  lemma {:induction false} FaultStays(c: Checks, q: Request, excerpts: seq<Excerpt>, n: nat)
    requires n <= |excerpts| && ExcerptsFault(c, q, excerpts[..n]).Some?
    ensures ExcerptsFault(c, q, excerpts) == ExcerptsFault(c, q, excerpts[..n])
  {
    if n == |excerpts| {
      assert excerpts[..n] == excerpts;
    } else {
      assert excerpts[..|excerpts| - 1][..n] == excerpts[..n];
      FaultStays(c, q, excerpts[..|excerpts| - 1], n);
    }
  }

  lemma FaultStep(c: Checks, q: Request, excerpts: seq<Excerpt>, i: nat)
    requires i < |excerpts| && ExcerptsFault(c, q, excerpts[..i]).None?
    ensures ExcerptsFault(c, q, excerpts[..i + 1]) == ExcerptFault(c, q, excerpts[..i], excerpts[i])
  {
    assert excerpts[..i + 1][..i] == excerpts[..i];
  }

  lemma MappedStep<T, U>(items: seq<T>, i: nat, f: T -> U)
    requires i < |items|
    ensures Mapped(items[..i + 1], f) == Mapped(items[..i], f) + [f(items[i])]
  {
    assert items[..i + 1][..i] == items[..i];
  }

  lemma FaultyTurn(c: Checks, q: Request, excerpts: seq<Excerpt>, i: nat, coordinates: map<(string, nat, nat), string>)
    requires i < |excerpts| && ExcerptsFault(c, q, excerpts[..i]).None? && Remembers(coordinates, excerpts[..i])
    requires FaultOf(c, q, Clashes(coordinates, excerpts[i]), excerpts[i]).Some?
    ensures ExcerptsFault(c, q, excerpts) == FaultOf(c, q, Clashes(coordinates, excerpts[i]), excerpts[i])
  {
    ConflictIsSeen(coordinates, excerpts[..i], excerpts[i]);
    FaultStep(c, q, excerpts, i);
    FaultStays(c, q, excerpts, i + 1);
  }

  lemma FaultlessTurn(
      c: Checks, q: Request, excerpts: seq<Excerpt>, i: nat, coordinates: map<(string, nat, nat), string>)
    requires i < |excerpts| && ExcerptsFault(c, q, excerpts[..i]).None? && Remembers(coordinates, excerpts[..i])
    requires FaultOf(c, q, Clashes(coordinates, excerpts[i]), excerpts[i]).None?
    ensures ExcerptsFault(c, q, excerpts[..i + 1]).None?
    ensures Remembers(coordinates[Place(excerpts[i]) := excerpts[i].contentHash], excerpts[..i + 1])
  {
    ConflictIsSeen(coordinates, excerpts[..i], excerpts[i]);
    FaultStep(c, q, excerpts, i);
    RemembersOneMore(coordinates, excerpts[..i], excerpts[i]);
    assert excerpts[..i + 1] == excerpts[..i] + [excerpts[i]];
  }

  method NormalizeExcerpts(c: Checks, q: Request, excerpts: seq<Excerpt>) returns (r: Result<seq<Excerpt>, Reason>)
    ensures r == match ExcerptsFault(c, q, excerpts)
                 case Some(reason) => Err(reason)
                 case None => Ok(Mapped(excerpts, NormalExcerpt(c)))
  {
    var coordinates: map<(string, nat, nat), string> := map[];
    var normalized := [];
    for i := 0 to |excerpts|
      invariant ExcerptsFault(c, q, excerpts[..i]).None? && Remembers(coordinates, excerpts[..i])
      invariant normalized == Mapped(excerpts[..i], NormalExcerpt(c))
    {
      var e := excerpts[i];
      var checked := CheckExcerpt(c, q, Clashes(coordinates, e), e);
      if checked.Err? {
        FaultyTurn(c, q, excerpts, i, coordinates);
        return Err(checked.error);
      }
      FaultlessTurn(c, q, excerpts, i, coordinates);
      MappedStep(excerpts, i, NormalExcerpt(c));
      coordinates, normalized := coordinates[Place(e) := e.contentHash], normalized + [checked.value];
    }
    assert excerpts[..|excerpts|] == excerpts;
    r := Ok(normalized);
  }

  /** The loops over hunks and over diagnostics stop at the first fault. */
  method FindFault<T>(items: seq<T>, fault: T -> Option<Reason>) returns (r: Option<Reason>)
    ensures r == FirstFault(items, fault)
  {
    for i := 0 to |items|
      invariant FirstFault(items[..i], fault).None?
    {
      assert items[..i + 1][..i] == items[..i];
      r := fault(items[i]);
      if r.Some? {
        FirstFaultStays(items, fault, i + 1);
        return;
      }
    }
    assert items[..|items|] == items;
    r := None;
  }

  lemma {:induction false} FirstFaultStays<T>(items: seq<T>, fault: T -> Option<Reason>, n: nat)
    requires n <= |items| && FirstFault(items[..n], fault).Some?
    ensures FirstFault(items, fault) == FirstFault(items[..n], fault)
  {
    if n == |items| {
      assert items[..n] == items;
    } else {
      assert items[..|items| - 1][..n] == items[..n];
      FirstFaultStays(items[..|items| - 1], fault, n);
    }
  }

  method ValidateIntegrity(c: Checks, q: Request, m: Material) returns (r: Result<Material, Reason>)
    ensures r == match Verdict(c, q, m) case Some(reason) => Err(reason) case None => Ok(Normalized(c, m))
  {
    if HasClass(c, q, m, Errors.Secret) {
      return Err(SecretDenied);
    }
    if HasClass(c, q, m, Errors.Sensitive) && !q.hasSensitiveRule {
      return Err(SensitiveDenied);
    }
    if !PathsAreNormal(c, q, m) {
      return Err(PathInvalid);
    }
    var excerpts := NormalizeExcerpts(c, q, m.excerpts);
    if excerpts.Err? {
      return Err(excerpts.error);
    }
    var fault := FindFault(m.hunks, HunkFaults(c, q));
    if fault.Some? {
      return Err(fault.value);
    }
    fault := FindFault(m.diagnostics, DiagnosticFaults(c, q));
    if fault.Some? {
      return Err(fault.value);
    }
    if AnyText(c, q, m, c.marked) {
      return Err(MarkerDenied);
    }
    if AnyText(c, q, m, c.indicating) {
      return Err(IndicatorFound);
    }
    r := Ok(Material(excerpts.value, Mapped(m.hunks, NormalHunk(c)), m.diagnostics));
  }
}
