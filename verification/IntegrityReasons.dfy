/**
 Which reasons a refused context can be given, and when the reason does not depend on the order of its parts.
 */
module IntegrityReasons {
  import opened Prelude
  import opened Sorting
  import opened ContextIntegrity
  import Errors = ErrorCompaction

  // ---- Excerpts ----

  /**
   An excerpt has this fault by itself, or one without faults conflicts with another that has this fault when it comes
   second.
   */
  ghost predicate MayGive(c: Checks, q: Request, excerpts: seq<Excerpt>, r: Reason) {
    || (exists i | 0 <= i < |excerpts| :: FaultOf(c, q, false, excerpts[i]) == Some(r))
    || (exists i, j | 0 <= i < |excerpts| && 0 <= j < |excerpts| :: Shadows(c, q, excerpts[i], excerpts[j], r))
  }

  predicate Shadows(c: Checks, q: Request, a: Excerpt, b: Excerpt, r: Reason) {
    FaultOf(c, q, false, a).None? && Conflict(a, b) && FaultOf(c, q, true, b) == Some(r)
  }

  lemma {:induction false} NoneBefore(c: Checks, q: Request, excerpts: seq<Excerpt>)
    requires ExcerptsFault(c, q, excerpts).None?
    ensures forall i | 0 <= i < |excerpts| :: FaultOf(c, q, false, excerpts[i]).None?
  {
    if excerpts != [] {
      NoneBefore(c, q, excerpts[..|excerpts| - 1]);
      assert forall i | 0 <= i < |excerpts| - 1 :: excerpts[..|excerpts| - 1][i] == excerpts[i];
    }
  }

  lemma MoreMayGive(c: Checks, q: Request, excerpts: seq<Excerpt>, n: nat, r: Reason)
    requires n <= |excerpts| && MayGive(c, q, excerpts[..n], r)
    ensures MayGive(c, q, excerpts, r)
  {
    var before := excerpts[..n];
    if i :| 0 <= i < n && FaultOf(c, q, false, before[i]) == Some(r) {
      assert excerpts[i] == before[i];
    } else {
      var i, j :| 0 <= i < n && 0 <= j < n && Shadows(c, q, before[i], before[j], r);
      assert Shadows(c, q, excerpts[i], excerpts[j], r);
    }
  }

  /** The reason that the loop gives is one of these. */
  lemma {:induction false} GivenMayBeGiven(c: Checks, q: Request, excerpts: seq<Excerpt>)
    requires ExcerptsFault(c, q, excerpts).Some?
    ensures MayGive(c, q, excerpts, ExcerptsFault(c, q, excerpts).value)
  {
    var n, r := |excerpts| - 1, ExcerptsFault(c, q, excerpts).value;
    var before, e := excerpts[..n], excerpts[n];
    if ExcerptsFault(c, q, before).Some? {
      GivenMayBeGiven(c, q, before);
      MoreMayGive(c, q, excerpts, n, r);
    } else if i :| 0 <= i < |before| && Conflict(before[i], e) {
      NoneBefore(c, q, before);
      assert Shadows(c, q, excerpts[i], excerpts[n], r);
    }
  }

  lemma ToFront<T>(items: seq<T>, a: T) returns (rest: seq<T>)
    requires a in items
    ensures multiset([a] + rest) == multiset(items)
  {
    var i :| 0 <= i < |items| && items[i] == a;
    rest := Without(items, i);
    WithoutMultiset(items, i);
  }

  lemma FirstIsGiven(c: Checks, q: Request, a: Excerpt, rest: seq<Excerpt>)
    requires FaultOf(c, q, false, a).Some?
    ensures ExcerptsFault(c, q, [a] + rest) == FaultOf(c, q, false, a)
  {
    var p := [a] + rest;
    assert p[..1] == [a] && [a][..0] == [];
    assert ExcerptsFault(c, q, []) == None;
    FaultStays(c, q, p, 1);
  }

  lemma SecondIsGiven(c: Checks, q: Request, a: Excerpt, b: Excerpt, rest: seq<Excerpt>, r: Reason)
    requires Shadows(c, q, a, b, r)
    ensures ExcerptsFault(c, q, [a] + ([b] + rest)) == Some(r)
  {
    var p := [a] + ([b] + rest);
    assert [a][..0] == [] && ExcerptsFault(c, q, []) == None;
    assert ExcerptsFault(c, q, [a]).None?;
    assert p[..2] == [a, b] && [a, b][..1] == [a];
    assert Conflict([a][0], b);
    FaultStays(c, q, p, 2);
  }

  /** Each of these reasons is given in some order. */
  lemma SomeOrderGives(c: Checks, q: Request, excerpts: seq<Excerpt>, r: Reason) returns (p: seq<Excerpt>)
    requires MayGive(c, q, excerpts, r)
    ensures multiset(p) == multiset(excerpts) && ExcerptsFault(c, q, p) == Some(r)
  {
    if i :| 0 <= i < |excerpts| && FaultOf(c, q, false, excerpts[i]) == Some(r) {
      var rest := ToFront(excerpts, excerpts[i]);
      FirstIsGiven(c, q, excerpts[i], rest);
      p := [excerpts[i]] + rest;
    } else {
      var i, j :| 0 <= i < |excerpts| && 0 <= j < |excerpts| && Shadows(c, q, excerpts[i], excerpts[j], r);
      var a, b := excerpts[i], excerpts[j];
      var others := ToFront(excerpts, a);
      assert b in multiset([a] + others);
      var rest := ToFront(others, b);
      SecondIsGiven(c, q, a, b, rest, r);
      p := [a] + ([b] + rest);
      assert multiset(p) == multiset{a} + multiset([b] + rest);
    }
  }

  lemma StillThere<T>(a: seq<T>, b: seq<T>, i: nat) returns (k: nat)
    requires multiset(a) == multiset(b) && i < |a|
    ensures k < |b| && b[k] == a[i]
  {
    assert a[i] in multiset(b);
    k :| 0 <= k < |b| && b[k] == a[i];
  }

  lemma MayGiveInAnyOrder(c: Checks, q: Request, a: seq<Excerpt>, b: seq<Excerpt>, r: Reason)
    requires multiset(a) == multiset(b) && MayGive(c, q, a, r)
    ensures MayGive(c, q, b, r)
  {
    if i :| 0 <= i < |a| && FaultOf(c, q, false, a[i]) == Some(r) {
      var k := StillThere(a, b, i);
    } else {
      var i, j :| 0 <= i < |a| && 0 <= j < |a| && Shadows(c, q, a[i], a[j], r);
      var k := StillThere(a, b, i);
      var l := StillThere(a, b, j);
      assert Shadows(c, q, b[k], b[l], r);
    }
  }

  ghost predicate OneReason(c: Checks, q: Request, excerpts: seq<Excerpt>) {
    forall r, s | MayGive(c, q, excerpts, r) && MayGive(c, q, excerpts, s) :: r == s
  }

  ghost predicate AlwaysGives(c: Checks, q: Request, excerpts: seq<Excerpt>, fault: Option<Reason>) {
    forall p | multiset(p) == multiset(excerpts) :: ExcerptsFault(c, q, p) == fault
  }

  lemma FaultInAnyOrder(c: Checks, q: Request, a: seq<Excerpt>, b: seq<Excerpt>)
    requires multiset(a) == multiset(b) && OneReason(c, q, a)
    ensures ExcerptsFault(c, q, a) == ExcerptsFault(c, q, b)
  {
    if ExcerptsFault(c, q, b).Some? {
      GivenMayBeGiven(c, q, b);
      MayGiveInAnyOrder(c, q, b, a, ExcerptsFault(c, q, b).value);
    }
    if ExcerptsFault(c, q, a).Some? {
      GivenMayBeGiven(c, q, a);
    }
    FaultyInAnyOrder(c, q, a, b);
  }

  lemma FaultyInAnyOrder(c: Checks, q: Request, a: seq<Excerpt>, b: seq<Excerpt>)
    requires multiset(a) == multiset(b)
    ensures ExcerptsFault(c, q, a).None? <==> ExcerptsFault(c, q, b).None?
  {
    NoExcerptFault(c, q, a);
    NoExcerptFault(c, q, b);
    if ExcerptsFault(c, q, a).None? { ExcerptsStayValid(c, q, a, b); }
    if ExcerptsFault(c, q, b).None? { ExcerptsStayValid(c, q, b, a); }
  }

  /** Every order of the excerpts gives the same reason exactly when there is only one that any order can give. */
  lemma OneReasonIff(c: Checks, q: Request, excerpts: seq<Excerpt>)
    ensures AlwaysGives(c, q, excerpts, ExcerptsFault(c, q, excerpts)) <==> OneReason(c, q, excerpts)
  {
    if OneReason(c, q, excerpts) {
      forall p | multiset(p) == multiset(excerpts)
        ensures ExcerptsFault(c, q, p) == ExcerptsFault(c, q, excerpts)
      {
        FaultInAnyOrder(c, q, excerpts, p);
      }
    }
    if AlwaysGives(c, q, excerpts, ExcerptsFault(c, q, excerpts)) {
      forall r, s | MayGive(c, q, excerpts, r) && MayGive(c, q, excerpts, s)
        ensures r == s
      {
        var p := SomeOrderGives(c, q, excerpts, r);
        var p' := SomeOrderGives(c, q, excerpts, s);
      }
    }
  }

  // ---- Hunks and diagnostics ----

  predicate Faulty<T>(items: seq<T>, fault: T -> Option<Reason>) {
    exists i | 0 <= i < |items| :: fault(items[i]).Some?
  }

  predicate OneFault<T>(items: seq<T>, fault: T -> Option<Reason>) {
    forall i, j | 0 <= i < |items| && 0 <= j < |items| && fault(items[i]).Some? && fault(items[j]).Some? ::
      fault(items[i]) == fault(items[j])
  }

  lemma {:induction false} FirstFaultIsOne<T>(items: seq<T>, fault: T -> Option<Reason>) returns (i: nat)
    requires FirstFault(items, fault).Some?
    ensures i < |items| && fault(items[i]) == FirstFault(items, fault)
  {
    i := |items| - 1;
    if FirstFault(items[..i], fault).Some? {
      i := FirstFaultIsOne(items[..i], fault);
    }
  }

  lemma SomeOrderBeginsWith<T>(items: seq<T>, fault: T -> Option<Reason>, i: nat) returns (p: seq<T>)
    requires i < |items| && fault(items[i]).Some?
    ensures multiset(p) == multiset(items) && FirstFault(p, fault) == fault(items[i])
  {
    var rest := ToFront(items, items[i]);
    p := [items[i]] + rest;
    assert p[..1] == [items[i]] && [items[i]][..0] == [];
    assert FirstFault(p[..0], fault) == None;
    FirstFaultStays(p, fault, 1);
  }

  lemma FaultyItemsInAnyOrder<T>(a: seq<T>, b: seq<T>, fault: T -> Option<Reason>)
    requires multiset(a) == multiset(b) && Faulty(a, fault)
    ensures Faulty(b, fault)
  {
    var i :| 0 <= i < |a| && fault(a[i]).Some?;
    var k := StillThere(a, b, i);
  }

  lemma FirstFaultInAnyOrder<T>(a: seq<T>, b: seq<T>, fault: T -> Option<Reason>)
    requires multiset(a) == multiset(b)
    ensures FirstFault(a, fault).Some? <==> Faulty(a, fault)
    ensures FirstFault(a, fault).Some? <==> FirstFault(b, fault).Some?
    ensures OneFault(a, fault) ==> FirstFault(a, fault) == FirstFault(b, fault)
  {
    NoFault(a, fault);
    NoFault(b, fault);
    if Faulty(a, fault) { FaultyItemsInAnyOrder(a, b, fault); }
    if Faulty(b, fault) { FaultyItemsInAnyOrder(b, a, fault); }
    if FirstFault(a, fault).Some? && FirstFault(b, fault).Some? {
      var i := FirstFaultIsOne(a, fault);
      var j := FirstFaultIsOne(b, fault);
      var k := StillThere(b, a, j);
    }
  }

  /** When there are two faults, some order gives another one than this. */
  lemma SomeOrderDiffers<T>(items: seq<T>, fault: T -> Option<Reason>) returns (p: seq<T>)
    requires !OneFault(items, fault)
    ensures multiset(p) == multiset(items) && FirstFault(p, fault) != FirstFault(items, fault)
  {
    var i, j :| 0 <= i < |items| && 0 <= j < |items| && fault(items[i]).Some? && fault(items[j]).Some?
                && fault(items[i]) != fault(items[j]);
    p := SomeOrderBeginsWith(items, fault, i);
    if FirstFault(p, fault) == FirstFault(items, fault) {
      p := SomeOrderBeginsWith(items, fault, j);
    }
  }

  // ---- The verdict ----

  /** The context is refused for its data classes or paths, before its parts are looked at one by one. */
  predicate StopsEarly(c: Checks, q: Request, m: Material) {
    || HasClass(c, q, m, Errors.Secret) || (HasClass(c, q, m, Errors.Sensitive) && !q.hasSensitiveRule)
    || !PathsAreNormal(c, q, m)
  }

  /** Of the first kind of parts with faults, all possible reasons are the same. */
  ghost predicate ReasonIsFixed(c: Checks, q: Request, m: Material) {
    || StopsEarly(c, q, m)
    || if exists r :: MayGive(c, q, m.excerpts, r) then OneReason(c, q, m.excerpts)
       else if Faulty(m.hunks, HunkFaults(c, q)) then OneFault(m.hunks, HunkFaults(c, q))
       else OneFault(m.diagnostics, DiagnosticFaults(c, q))
  }

  lemma SameEarly(c: Checks, q: Request, a: Material, b: Material)
    requires SameMaterial(a, b)
    ensures forall dataClass :: HasClass(c, q, a, dataClass) ==> HasClass(c, q, b, dataClass)
    ensures PathsAreNormal(c, q, a) ==> PathsAreNormal(c, q, b)
    ensures forall bad :: AnyText(c, q, a, bad) ==> AnyText(c, q, b, bad)
  {
    Errors.SameMembers(a.excerpts, b.excerpts);
    Errors.SameMembers(a.hunks, b.hunks);
    Errors.SameMembers(a.diagnostics, b.diagnostics);
  }

  lemma SomeReasonIff(c: Checks, q: Request, excerpts: seq<Excerpt>)
    ensures (exists r :: MayGive(c, q, excerpts, r)) <==> ExcerptsFault(c, q, excerpts).Some?
  {
    if ExcerptsFault(c, q, excerpts).Some? {
      GivenMayBeGiven(c, q, excerpts);
    }
    if r :| MayGive(c, q, excerpts, r) {
      var p := SomeOrderGives(c, q, excerpts, r);
      FaultyInAnyOrder(c, q, excerpts, p);
    }
  }

  lemma FixedInAnyOrder(c: Checks, q: Request, m: Material, o: Material)
    requires SameMaterial(m, o) && ReasonIsFixed(c, q, m)
    ensures Verdict(c, q, o) == Verdict(c, q, m)
  {
    SameEarly(c, q, m, o);
    SameEarly(c, q, o, m);
    if !StopsEarly(c, q, m) {
      SomeReasonIff(c, q, m.excerpts);
      FaultyInAnyOrder(c, q, m.excerpts, o.excerpts);
      FirstFaultInAnyOrder(m.hunks, o.hunks, HunkFaults(c, q));
      FirstFaultInAnyOrder(m.diagnostics, o.diagnostics, DiagnosticFaults(c, q));
      if ExcerptsFault(c, q, m.excerpts).Some? {
        FaultInAnyOrder(c, q, m.excerpts, o.excerpts);
      }
    }
  }

  lemma AnotherOrderDiffers(c: Checks, q: Request, m: Material) returns (o: Material)
    requires !ReasonIsFixed(c, q, m)
    ensures SameMaterial(m, o) && Verdict(c, q, o) != Verdict(c, q, m)
  {
    SomeReasonIff(c, q, m.excerpts);
    NoFault(m.hunks, HunkFaults(c, q));
    if ExcerptsFault(c, q, m.excerpts).Some? {
      OneReasonIff(c, q, m.excerpts);
      var p :| multiset(p) == multiset(m.excerpts) && ExcerptsFault(c, q, p) != ExcerptsFault(c, q, m.excerpts);
      FaultyInAnyOrder(c, q, m.excerpts, p);
      o := m.(excerpts := p);
    } else if Faulty(m.hunks, HunkFaults(c, q)) {
      var p := SomeOrderDiffers(m.hunks, HunkFaults(c, q));
      FirstFaultInAnyOrder(m.hunks, p, HunkFaults(c, q));
      o := m.(hunks := p);
    } else {
      var p := SomeOrderDiffers(m.diagnostics, DiagnosticFaults(c, q));
      FirstFaultInAnyOrder(m.diagnostics, p, DiagnosticFaults(c, q));
      NoFault(m.diagnostics, DiagnosticFaults(c, q));
      o := m.(diagnostics := p);
    }
    SameEarly(c, q, m, o);
    SameEarly(c, q, o, m);
  }

  /** Every order of the parts gets the same verdict exactly when the reason is fixed. */
  lemma ReasonIsFixedIff(c: Checks, q: Request, m: Material)
    ensures (forall o | SameMaterial(m, o) :: Verdict(c, q, o) == Verdict(c, q, m)) <==> ReasonIsFixed(c, q, m)
  {
    if ReasonIsFixed(c, q, m) {
      forall o | SameMaterial(m, o)
        ensures Verdict(c, q, o) == Verdict(c, q, m)
      {
        FixedInAnyOrder(c, q, m, o);
      }
    } else {
      var o := AnotherOrderDiffers(c, q, m);
    }
  }
}
