/**
 Error compaction: diagnostics are checked, their texts normalised, repeated stack frames removed, and the
 results sorted; later the first error with each fingerprint is kept.
 */
module ErrorCompaction {
  import opened Prelude
  import opened TextOrder
  import opened Sorting

  datatype DataClass = Public | Internal | Sensitive | Secret

  datatype Diagnostic = Diagnostic(
    id: string, stage: string, command: string, exitCode: int, code: Option<string>, path: Option<string>,
    symbol: Option<string>,
    message: string, frames: seq<string>, dataClass: DataClass, redacted: bool, critical: bool, priority: nat)

  datatype CompactError = CompactError(
    id: string, stage: string, command: string, exitCode: int, code: Option<string>, path: Option<string>,
    symbol: Option<string>, message: string, frames: seq<string>, fingerprint: string, critical: bool, priority: nat)

  /** What the fingerprint is made of, and what errors are sorted by. */
  datatype Identity = Identity(
    stage: string, command: string, exitCode: int, code: Option<string>, path: Option<string>, symbol: Option<string>,
    message: string, frames: seq<string>)
  datatype OrderKey = OrderKey(
    stage: string, command: string, path: Option<string>, code: Option<string>, fingerprint: string, id: string)

  datatype Normalized = Normalized(value: string, reasons: set<string>)

  /**
   The replacements of patterns, the normal form NFC, the hash of an identity's canonical text, and what stands in the
   canonical text of an order key before and behind the diagnostic's identifier.
   */
  datatype Texts = Texts(
    normalize: string -> Normalized, nfc: string -> string, fingerprint: Identity -> string,
    before: (string, Option<string>) -> string, behind: (string, Option<string>, string) -> string)

  /** Canonical members are in the order of their keys: command, code, identifier, fingerprint, path, stage. */
  function KeyText(x: Texts, k: OrderKey): string {
    x.before(k.command, k.code) + Quoted(k.id, x.behind(k.fingerprint, NormalPath(x, k.path), k.stage))
  }

  function NormalPath(x: Texts, path: Option<string>): Option<string> {
    if path.Some? then Some(x.nfc(path.value)) else None
  }

  /** The rest of a string literal without escapes, and what stands behind it. */
  function Quoted(id: string, behind: string): string {
    id + "\"" + behind
  }

  /** Canonical texts of order keys with different identifiers are different. */
  ghost predicate Injective(x: Texts) {
    forall a, b :: KeyText(x, a) == KeyText(x, b) ==> a.id == b.id
  }

  /**
   What the canonical text of an identity keeps of it: strings are put through NFC there. The other strings are
   identifiers, which NFC leaves as they are.
   */
  function NormalForm(x: Texts, k: Identity): Identity {
    k.(path := NormalPath(x, k.path), message := x.nfc(k.message), frames := Mapped(k.frames, x.nfc))
  }

  predicate SameForm(x: Texts, a: Identity, b: Identity) { NormalForm(x, a) == NormalForm(x, b) }

  /** Hashes are the same exactly for the same canonical texts. */
  ghost predicate Identifies(x: Texts) {
    forall a, b :: x.fingerprint(a) == x.fingerprint(b) <==> SameForm(x, a, b)
  }

  const DUPLICATE_FRAME: string := "DUPLICATE_FRAME_REMOVED"

  // ---- Frames ----

  function Same(s: string): string { s }

  /** The normalised frames that are not empty. */
  function Filled(x: Texts, frames: seq<string>): seq<string> {
    if frames == [] then []
    else
      var value := x.normalize(frames[|frames| - 1]).value;
      Filled(x, frames[..|frames| - 1]) + if value == "" then [] else [value]
  }

  function FramesOf(x: Texts, frames: seq<string>): seq<string> {
    FirstPerKey(Filled(x, frames), Same).kept
  }

  /** Two frames are the same once normalised. */
  predicate RepeatsFrame(x: Texts, frames: seq<string>) {
    exists i, j | 0 <= i < j < |frames| ::
      x.normalize(frames[i]).value == x.normalize(frames[j]).value && x.normalize(frames[j]).value != ""
  }

  function FrameReasons(x: Texts, frames: seq<string>): set<string> {
    (set i, reason | 0 <= i < |frames| && reason in x.normalize(frames[i]).reasons :: reason)
    + if RepeatsFrame(x, frames) then {DUPLICATE_FRAME} else {}
  }

  lemma {:induction false} FilledHolds(x: Texts, frames: seq<string>, value: string)
    ensures value in Filled(x, frames) <==>
            value != "" && exists i | 0 <= i < |frames| :: x.normalize(frames[i]).value == value
  {
    if frames != [] {
      var front := frames[..|frames| - 1];
      FilledHolds(x, front, value);
      assert forall i | 0 <= i < |front| :: front[i] == frames[i];
    }
  }

  /** What is left of the stack frames: every normalised text that is not empty, each once. */
  lemma FramesAreExact(x: Texts, frames: seq<string>, value: string)
    ensures value in FramesOf(x, frames) <==>
            value != "" && exists i | 0 <= i < |frames| :: x.normalize(frames[i]).value == value
    ensures forall i, j | 0 <= i < j < |FramesOf(x, frames)| :: FramesOf(x, frames)[i] != FramesOf(x, frames)[j]
  {
    var filled := Filled(x, frames);
    FilledHolds(x, frames, value);
    FirstPerKeyParts(filled, Same);
    EveryKeyIsKept(filled, Same);
    if value in filled {
      var i :| 0 <= i < |filled| && filled[i] == value;
      assert HasKeyOf(FramesOf(x, frames), filled[i], Same);
    }
    if value in FramesOf(x, frames) {
      assert value in multiset(filled);
    }
    assert forall s :: Same(s) == s;
  }

  lemma NothingFilled(x: Texts)
    ensures FramesOf(x, []) == [] && FrameReasons(x, []) == {}
  {
    assert Filled(x, []) == [] && !RepeatsFrame(x, []);
  }

  /** The loop over the frames of one diagnostic. */
  method CompactFrames(x: Texts, raw: seq<string>) returns (frames: seq<string>, reasons: set<string>)
    ensures frames == FramesOf(x, raw) && reasons == FrameReasons(x, raw)
  {
    frames, reasons := [], {};
    var seenFrames: set<string> := {};
    NothingFilled(x);
    assert raw[..0] == [];
    for n := 0 to |raw|
      invariant frames == FramesOf(x, raw[..n]) && reasons == FrameReasons(x, raw[..n])
      invariant forall s :: s in seenFrames <==> s in frames
    {
      var frame := x.normalize(raw[n]);
      FramesStep(x, raw, n);
      reasons := reasons + frame.reasons;
      if frame.value != "" && frame.value !in seenFrames {
        seenFrames := seenFrames + {frame.value};
        frames := frames + [frame.value];
      } else if frame.value != "" {
        reasons := reasons + {DUPLICATE_FRAME};
      }
    }
    assert raw[..|raw|] == raw;
  }

  lemma FramesStep(x: Texts, raw: seq<string>, n: nat)
    requires n < |raw|
    ensures var frame, before := x.normalize(raw[n]), FramesOf(x, raw[..n]);
            && FramesOf(x, raw[..n + 1])
               == (if frame.value == "" || frame.value in before then before else before + [frame.value])
            && FrameReasons(x, raw[..n + 1])
               == FrameReasons(x, raw[..n]) + frame.reasons
                  + if frame.value != "" && frame.value in before then {DUPLICATE_FRAME} else {}
  {
    var before, all := raw[..n], raw[..n + 1];
    assert all[..n] == before && all[n] == raw[n];
    KeptStep(x, all, before);
    FrameReasonsStep(x, all, before);
  }

  lemma FrameReasonsStep(x: Texts, all: seq<string>, before: seq<string>)
    requires all != [] && before == all[..|all| - 1]
    ensures var frame := x.normalize(all[|all| - 1]);
            FrameReasons(x, all)
            == FrameReasons(x, before) + frame.reasons
               + if frame.value != "" && frame.value in FramesOf(x, before) then {DUPLICATE_FRAME} else {}
  {
    FramesAreExact(x, before, x.normalize(all[|all| - 1]).value);
    assert forall s :: Same(s) == s;
    RepeatsStep(x, all, before);
    assert forall i | 0 <= i < |before| :: all[i] == before[i];
    ReasonsStep(x, all, before);
  }

  lemma KeptStep(x: Texts, all: seq<string>, before: seq<string>)
    requires all != [] && before == all[..|all| - 1]
    ensures var value := x.normalize(all[|all| - 1]).value;
            FramesOf(x, all)
            == if value == "" || value in FramesOf(x, before) then FramesOf(x, before)
               else FramesOf(x, before) + [value]
  {
    var value, filled, kept := x.normalize(all[|all| - 1]).value, Filled(x, before), FramesOf(x, before);
    assert HasKeyOf(kept, value, Same) <==> value in kept by {
      assert forall s :: Same(s) == s;
    }
    if value == "" {
      assert Filled(x, all) == filled;
    } else {
      assert Filled(x, all)[..|filled|] == filled;
    }
  }

  lemma RepeatsStep(x: Texts, all: seq<string>, before: seq<string>)
    requires all != [] && before == all[..|all| - 1]
    ensures var value := x.normalize(all[|all| - 1]).value;
            RepeatsFrame(x, all)
            <==> RepeatsFrame(x, before)
                 || (value != "" && exists i | 0 <= i < |before| :: x.normalize(before[i]).value == value)
  {
    assert forall i | 0 <= i < |before| :: before[i] == all[i];
    if RepeatsFrame(x, before) {
      var i, j :| 0 <= i < j < |before|
                  && x.normalize(before[i]).value == x.normalize(before[j]).value && x.normalize(before[j]).value != "";
      assert all[i] == before[i] && all[j] == before[j];
    }
  }

  lemma ReasonsStep(x: Texts, all: seq<string>, before: seq<string>)
    requires all != [] && before == all[..|all| - 1]
    ensures (set i, reason | 0 <= i < |all| && reason in x.normalize(all[i]).reasons :: reason)
            == (set i, reason | 0 <= i < |before| && reason in x.normalize(before[i]).reasons :: reason)
               + x.normalize(all[|all| - 1]).reasons
  {
    assert forall i | 0 <= i < |before| :: before[i] == all[i];
  }

  // ---- Errors ----

  function IdentityOf(x: Texts, d: Diagnostic): Identity {
    Identity(d.stage, d.command, d.exitCode, d.code, d.path, d.symbol, x.normalize(d.message).value,
             FramesOf(x, d.frames))
  }

  function ErrorOf(x: Texts, d: Diagnostic): CompactError {
    CompactError(d.id, d.stage, d.command, d.exitCode, d.code, d.path, d.symbol, x.normalize(d.message).value,
                 FramesOf(x, d.frames), x.fingerprint(IdentityOf(x, d)), d.critical, d.priority)
  }

  function MakeError(x: Texts): Diagnostic -> CompactError {
    d => ErrorOf(x, d)
  }

  function ReasonsOf(x: Texts, d: Diagnostic): set<string> {
    x.normalize(d.message).reasons + FrameReasons(x, d.frames)
  }

  function AllReasons(x: Texts, diagnostics: seq<Diagnostic>): set<string> {
    set i, reason | 0 <= i < |diagnostics| && reason in ReasonsOf(x, diagnostics[i]) :: reason
  }

  function OrderText(x: Texts, e: CompactError): string {
    KeyText(x, OrderKey(e.stage, e.command, e.path, e.code, e.fingerprint, e.id))
  }

  function ByText(x: Texts): (CompactError, CompactError) -> bool {
    (a, b) => IdLess(OrderText(x, a), OrderText(x, b))
  }

  datatype Refusal = SecretDenied | SensitiveDenied | IntegrityInvalid

  /** `Thrown`: the schema of compact errors rejects an empty message, and nothing catches that. */
  datatype Compaction = Compacted(errors: seq<CompactError>, reasons: set<string>) | Stop(refusal: Refusal) | Thrown

  function RefusalOf(diagnostics: seq<Diagnostic>, allowed: set<string>): Option<Refusal> {
    if exists i | 0 <= i < |diagnostics| :: diagnostics[i].dataClass == Secret then Some(SecretDenied)
    else if exists i | 0 <= i < |diagnostics| :: diagnostics[i].dataClass == Sensitive && !diagnostics[i].redacted
    then Some(SensitiveDenied)
    else if exists i | 0 <= i < |diagnostics| :: diagnostics[i].command !in allowed then Some(IntegrityInvalid)
    else None
  }

  predicate SaysNothing(x: Texts, diagnostics: seq<Diagnostic>) {
    exists i | 0 <= i < |diagnostics| :: x.normalize(diagnostics[i].message).value == ""
  }

  function Compact(x: Texts, diagnostics: seq<Diagnostic>, allowed: set<string>): Compaction {
    var refusal := RefusalOf(diagnostics, allowed);
    if refusal.Some? then Stop(refusal.value)
    else if SaysNothing(x, diagnostics) then Thrown
    else Compacted(Sorted(Mapped(diagnostics, MakeError(x)), ByText(x)), AllReasons(x, diagnostics))
  }

  predicate DistinctIds(diagnostics: seq<Diagnostic>) {
    forall i, j | 0 <= i < j < |diagnostics| :: diagnostics[i].id != diagnostics[j].id
  }

  lemma ByTextIsStrict(x: Texts)
    ensures StrictOrder(ByText(x))
  {
    var less := ByText(x);
    forall a
      ensures !less(a, a)
    {
      IdLessTotal(OrderText(x, a), OrderText(x, a));
    }
    forall a, b, c | less(a, b) && less(b, c)
      ensures less(a, c)
    {
      IdLessTransitive(OrderText(x, a), OrderText(x, b), OrderText(x, c));
    }
  }

  lemma ErrorsAreComparable(x: Texts, diagnostics: seq<Diagnostic>)
    requires Injective(x) && DistinctIds(diagnostics)
    ensures Comparable(Mapped(diagnostics, MakeError(x)), ByText(x))
  {
    var errors := Mapped(diagnostics, MakeError(x));
    forall i, j | 0 <= i < j < |errors|
      ensures ByText(x)(errors[i], errors[j]) || ByText(x)(errors[j], errors[i])
    {
      assert errors[i].id == diagnostics[i].id && errors[j].id == diagnostics[j].id;
      IdLessTotal(OrderText(x, errors[i]), OrderText(x, errors[j]));
    }
  }

  /** The compacted errors are those of the diagnostics, all of them, in ascending order. */
  lemma CompactionIsExact(x: Texts, diagnostics: seq<Diagnostic>, allowed: set<string>)
    requires Injective(x) && DistinctIds(diagnostics) && Compact(x, diagnostics, allowed).Compacted?
    ensures var errors := Compact(x, diagnostics, allowed).errors;
            Ascending(errors, ByText(x)) && multiset(errors) == multiset(Mapped(diagnostics, MakeError(x)))
  {
    ByTextIsStrict(x);
    ErrorsAreComparable(x, diagnostics);
    SortedIs(Mapped(diagnostics, MakeError(x)), ByText(x));
  }

  lemma SameMembers<T>(a: seq<T>, b: seq<T>)
    requires multiset(a) == multiset(b)
    ensures forall i | 0 <= i < |a| :: exists j :: 0 <= j < |b| && b[j] == a[i]
    ensures forall j | 0 <= j < |b| :: exists i :: 0 <= i < |a| && a[i] == b[j]
  {
    forall i | 0 <= i < |a|
      ensures a[i] in b
    {
      assert a[i] in multiset(b);
    }
    forall j | 0 <= j < |b|
      ensures b[j] in a
    {
      assert b[j] in multiset(a);
    }
  }

  lemma SameRefusals(x: Texts, a: seq<Diagnostic>, b: seq<Diagnostic>, allowed: set<string>)
    requires multiset(a) == multiset(b)
    ensures RefusalOf(a, allowed) == RefusalOf(b, allowed) && (SaysNothing(x, a) <==> SaysNothing(x, b))
  {
    SameMembers(a, b);
  }

  lemma SameReasons(x: Texts, a: seq<Diagnostic>, b: seq<Diagnostic>)
    requires multiset(a) == multiset(b)
    ensures AllReasons(x, a) == AllReasons(x, b)
  {
    SameMembers(a, b);
  }

  /** The order in which the diagnostics come does not matter. */
  lemma CompactionIgnoresOrder(x: Texts, a: seq<Diagnostic>, b: seq<Diagnostic>, allowed: set<string>)
    requires Injective(x) && DistinctIds(a) && DistinctIds(b) && multiset(a) == multiset(b)
    ensures Compact(x, a, allowed) == Compact(x, b, allowed)
  {
    SameRefusals(x, a, b, allowed);
    SameReasons(x, a, b);
    ByTextIsStrict(x);
    ErrorsAreComparable(x, a);
    ErrorsAreComparable(x, b);
    MappedPermuted(a, b, MakeError(x));
    SortedIgnoresOrder(Mapped(a, MakeError(x)), Mapped(b, MakeError(x)), ByText(x));
  }

  /** One turn of the loop; nothing when the schema rejects the empty message. */
  method CompactOne(x: Texts, d: Diagnostic) returns (error: Option<CompactError>, reasons: set<string>)
    ensures error == if x.normalize(d.message).value == "" then None else Some(ErrorOf(x, d))
    ensures reasons == ReasonsOf(x, d)
  {
    var message := x.normalize(d.message);
    var frames, frameReasons := CompactFrames(x, d.frames);
    var fingerprint := x.fingerprint(
      Identity(d.stage, d.command, d.exitCode, d.code, d.path, d.symbol, message.value, frames));
    reasons := message.reasons + frameReasons;
    error := if message.value == "" then None
             else Some(CompactError(d.id, d.stage, d.command, d.exitCode, d.code, d.path, d.symbol, message.value,
                                    frames, fingerprint, d.critical, d.priority));
  }

  method CompactErrors(x: Texts, diagnostics: seq<Diagnostic>, allowed: set<string>) returns (r: Compaction)
    ensures r == Compact(x, diagnostics, allowed)
  {
    if exists i | 0 <= i < |diagnostics| :: diagnostics[i].dataClass == Secret {
      return Stop(SecretDenied);
    }
    if exists i | 0 <= i < |diagnostics| :: diagnostics[i].dataClass == Sensitive && !diagnostics[i].redacted {
      return Stop(SensitiveDenied);
    }
    if exists i | 0 <= i < |diagnostics| :: diagnostics[i].command !in allowed {
      return Stop(IntegrityInvalid);
    }
    var each := CompactEach(x, diagnostics);
    if each.None? {
      return Thrown;
    }
    r := Compacted(Sorted(each.value.0, ByText(x)), each.value.1);
  }

  /** The loop over the diagnostics; nothing when one of them has no message left. */
  method CompactEach(x: Texts, diagnostics: seq<Diagnostic>) returns (r: Option<(seq<CompactError>, set<string>)>)
    ensures r == if SaysNothing(x, diagnostics) then None
                 else Some((Mapped(diagnostics, MakeError(x)), AllReasons(x, diagnostics)))
  {
    var errors, reasons := [], {};
    for n := 0 to |diagnostics|
      invariant EachDone(x, diagnostics[..n], errors, reasons)
    {
      var error, more := CompactOne(x, diagnostics[n]);
      EachStep(x, diagnostics, n);
      if error.None? {
        return None;
      }
      errors, reasons := errors + [error.value], reasons + more;
    }
    assert diagnostics[..|diagnostics|] == diagnostics;
    r := Some((errors, reasons));
  }

  predicate EachDone(x: Texts, done: seq<Diagnostic>, errors: seq<CompactError>, reasons: set<string>) {
    !SaysNothing(x, done) && errors == Mapped(done, MakeError(x)) && reasons == AllReasons(x, done)
  }

  lemma EachStep(x: Texts, diagnostics: seq<Diagnostic>, n: nat)
    requires n < |diagnostics|
    ensures var before, all := diagnostics[..n], diagnostics[..n + 1];
            && AllReasons(x, all) == AllReasons(x, before) + ReasonsOf(x, diagnostics[n])
            && Mapped(all, MakeError(x)) == Mapped(before, MakeError(x)) + [ErrorOf(x, diagnostics[n])]
            && (SaysNothing(x, all) <==> SaysNothing(x, before) || x.normalize(diagnostics[n].message).value == "")
    ensures x.normalize(diagnostics[n].message).value == "" ==> SaysNothing(x, diagnostics)
  {
    var all, before := diagnostics[..n + 1], diagnostics[..n];
    assert all[..n] == before;
    assert forall i | 0 <= i < n :: all[i] == before[i];
    assert all[n] == diagnostics[n];
    AllReasonsStep(x, diagnostics, n);
  }

  lemma AllReasonsStep(x: Texts, diagnostics: seq<Diagnostic>, n: nat)
    requires n < |diagnostics|
    ensures AllReasons(x, diagnostics[..n + 1]) == AllReasons(x, diagnostics[..n]) + ReasonsOf(x, diagnostics[n])
  {
    var all, before := diagnostics[..n + 1], diagnostics[..n];
    assert forall i | 0 <= i < n :: all[i] == before[i];
    assert all[n] == diagnostics[n];
  }

  // ---- One error for each fingerprint ----

  function FingerprintOf(e: CompactError): string { e.fingerprint }

  /** The first of the errors with each fingerprint is kept, critical or not. */
  function OnePerFingerprint(errors: seq<CompactError>): Parted<CompactError> {
    FirstPerKey(errors, FingerprintOf)
  }

  /** Among sorted errors one is dropped exactly when another one with its fingerprint sorts before it. */
  lemma SortedErrorIsDroppedIff(x: Texts, errors: seq<CompactError>, j: nat)
    requires Ascending(errors, ByText(x)) && j < |errors|
    ensures errors[j] in OnePerFingerprint(errors).dropped
            <==> exists i | 0 <= i < j :: errors[i].fingerprint == errors[j].fingerprint
  {
    ByTextIsStrict(x);
    forall i, k | 0 <= i < k < |errors|
      ensures errors[i] != errors[k]
    {
      assert ByText(x)(errors[i], errors[k]);
    }
    DroppedIff(errors, j, FingerprintOf);
    assert forall e :: FingerprintOf(e) == e.fingerprint;
  }

  // ---- The order of alike errors ----

  /** No character up to the quote, as in every identifier that the schema allows. */
  predicate PlainId(id: string) {
    forall i | 0 <= i < |id| :: id[i] > '"'
  }

  lemma {:induction false} SamePrefix(prefix: string, a: string, b: string)
    ensures IdLess(prefix + a, prefix + b) <==> IdLess(a, b)
    decreases |prefix|
  {
    if prefix == [] {
      assert prefix + a == a && prefix + b == b;
    } else {
      SamePrefix(prefix[1..], a, b);
      assert (prefix + a)[1..] == prefix[1..] + a && (prefix + b)[1..] == prefix[1..] + b;
    }
  }

  /** The closing quote sorts before every character of an identifier. */
  lemma {:induction false} QuotedInOrder(a: string, b: string, behind: string)
    requires PlainId(a) && PlainId(b)
    ensures IdLess(Quoted(a, behind), Quoted(b, behind)) <==> IdLess(a, b)
    decreases |a|
  {
    var qa, qb := Quoted(a, behind), Quoted(b, behind);
    if a == [] && b == [] {
      IdLessTotal(qa, qb);
    } else if a != [] && b != [] && a[0] == b[0] {
      QuotedInOrder(a[1..], b[1..], behind);
      assert qa[1..] == Quoted(a[1..], behind) && qb[1..] == Quoted(b[1..], behind);
      assert qa[0] == a[0] && qb[0] == b[0];
    } else {
      assert qa[0] == (if a == [] then '"' else a[0]) && qb[0] == (if b == [] then '"' else b[0]);
    }
  }

  /**
   The same stage, command, exit code, code and symbol, and the same path, message and frames once texts are normalised
   and in NFC.
   */
  predicate Alike(x: Texts, d: Diagnostic, e: Diagnostic) { SameForm(x, IdentityOf(x, d), IdentityOf(x, e)) }

  /** Errors that are alike are in the order of their identifiers. */
  lemma AlikeInOrder(x: Texts, d: Diagnostic, e: Diagnostic)
    requires Identifies(x) && Alike(x, d, e) && PlainId(d.id) && PlainId(e.id)
    ensures ByText(x)(ErrorOf(x, d), ErrorOf(x, e)) <==> IdLess(d.id, e.id)
  {
    var behind := x.behind(x.fingerprint(IdentityOf(x, d)), NormalPath(x, d.path), d.stage);
    AlikeMembers(x, d, e);
    SamePrefix(x.before(d.command, d.code), Quoted(d.id, behind), Quoted(e.id, behind));
    QuotedInOrder(d.id, e.id, behind);
  }

  lemma AlikeMembers(x: Texts, d: Diagnostic, e: Diagnostic)
    requires Identifies(x) && Alike(x, d, e)
    ensures d.stage == e.stage && d.command == e.command && d.code == e.code
    ensures NormalPath(x, d.path) == NormalPath(x, e.path)
    ensures ErrorOf(x, d).fingerprint == ErrorOf(x, e).fingerprint
  {
  }

  predicate AlikeWithLesserId(x: Texts, diagnostics: seq<Diagnostic>, j: nat)
    requires j < |diagnostics|
  {
    exists i | 0 <= i < |diagnostics| ::
      Alike(x, diagnostics[i], diagnostics[j]) && IdLess(diagnostics[i].id, diagnostics[j].id)
  }

  predicate PlainIds(diagnostics: seq<Diagnostic>) {
    forall i | 0 <= i < |diagnostics| :: PlainId(diagnostics[i].id)
  }

  /** Where the error of a diagnostic stands among the sorted ones, and the other way round. */
  lemma ErrorStands(x: Texts, diagnostics: seq<Diagnostic>, errors: seq<CompactError>, i: nat)
    returns (k: nat)
    requires multiset(errors) == multiset(Mapped(diagnostics, MakeError(x))) && i < |diagnostics|
    ensures k < |errors| && errors[k] == ErrorOf(x, diagnostics[i])
  {
    var all := Mapped(diagnostics, MakeError(x));
    assert all[i] in multiset(errors);
    k :| 0 <= k < |errors| && errors[k] == all[i];
  }

  lemma ErrorStems(x: Texts, diagnostics: seq<Diagnostic>, errors: seq<CompactError>, k: nat)
    returns (i: nat)
    requires multiset(errors) == multiset(Mapped(diagnostics, MakeError(x))) && k < |errors|
    ensures i < |diagnostics| && errors[k] == ErrorOf(x, diagnostics[i])
  {
    var all := Mapped(diagnostics, MakeError(x));
    assert errors[k] in multiset(all);
    i :| 0 <= i < |all| && all[i] == errors[k];
  }

  /** Sorted errors that are alike stand in the order of the identifiers. */
  lemma AlikeStandInOrder(
      x: Texts, errors: seq<CompactError>, d: Diagnostic, l: nat, e: Diagnostic, k: nat)
    requires Ascending(errors, ByText(x)) && l < |errors| && k < |errors|
    requires errors[l] == ErrorOf(x, d) && errors[k] == ErrorOf(x, e)
    requires Identifies(x) && Alike(x, d, e) && PlainId(d.id) && PlainId(e.id)
    ensures IdLess(d.id, e.id) <==> l < k
  {
    AlikeInOrder(x, d, e);
    ByTextIsStrict(x);
    if k < l {
      assert ByText(x)(errors[k], errors[l]);
    } else if l < k {
      assert ByText(x)(errors[l], errors[k]);
    }
  }

  predicate SameBefore(errors: seq<CompactError>, k: nat)
    requires k < |errors|
  {
    exists l | 0 <= l < k :: errors[l].fingerprint == errors[k].fingerprint
  }

  lemma BeforeMeansAlike(
      x: Texts, diagnostics: seq<Diagnostic>, errors: seq<CompactError>, j: nat, k: nat)
    requires Identifies(x) && PlainIds(diagnostics) && Ascending(errors, ByText(x))
    requires multiset(errors) == multiset(Mapped(diagnostics, MakeError(x)))
    requires j < |diagnostics| && k < |errors| && errors[k] == ErrorOf(x, diagnostics[j])
    ensures SameBefore(errors, k) <==> AlikeWithLesserId(x, diagnostics, j)
  {
    if SameBefore(errors, k) {
      var l :| 0 <= l < k && errors[l].fingerprint == errors[k].fingerprint;
      var i := ErrorStems(x, diagnostics, errors, l);
      AlikeStandInOrder(x, errors, diagnostics[i], l, diagnostics[j], k);
    }
    if AlikeWithLesserId(x, diagnostics, j) {
      var i :| 0 <= i < |diagnostics| && Alike(x, diagnostics[i], diagnostics[j])
               && IdLess(diagnostics[i].id, diagnostics[j].id);
      var l := ErrorStands(x, diagnostics, errors, i);
      AlikeStandInOrder(x, errors, diagnostics[i], l, diagnostics[j], k);
    }
  }

  /**
   The error of a diagnostic is dropped exactly when another diagnostic that is alike has a lesser identifier, whether
   or not it is critical.
   */
  lemma ErrorIsDroppedIff(x: Texts, diagnostics: seq<Diagnostic>, allowed: set<string>, j: nat)
    requires Injective(x) && Identifies(x) && DistinctIds(diagnostics) && PlainIds(diagnostics)
    requires Compact(x, diagnostics, allowed).Compacted? && j < |diagnostics|
    ensures ErrorOf(x, diagnostics[j]) in OnePerFingerprint(Compact(x, diagnostics, allowed).errors).dropped
            <==> exists i | 0 <= i < |diagnostics| ::
                   Alike(x, diagnostics[i], diagnostics[j]) && IdLess(diagnostics[i].id, diagnostics[j].id)
  {
    var errors := Compact(x, diagnostics, allowed).errors;
    CompactionIsExact(x, diagnostics, allowed);
    var k := ErrorStands(x, diagnostics, errors, j);
    SortedErrorIsDroppedIff(x, errors, k);
    BeforeMeansAlike(x, diagnostics, errors, j, k);
  }

  predicate IsFirstAlike(x: Texts, diagnostics: seq<Diagnostic>, i: nat)
    requires i < |diagnostics|
  {
    !AlikeWithLesserId(x, diagnostics, i)
  }

  /** No critical error is dropped exactly when every critical diagnostic is the first of those alike. */
  lemma CriticalErrorsAreKeptIff(x: Texts, diagnostics: seq<Diagnostic>, allowed: set<string>)
    requires Injective(x) && Identifies(x) && DistinctIds(diagnostics) && PlainIds(diagnostics)
    requires Compact(x, diagnostics, allowed).Compacted?
    ensures (forall e | e in OnePerFingerprint(Compact(x, diagnostics, allowed).errors).dropped :: !e.critical)
            <==> forall j | 0 <= j < |diagnostics| && diagnostics[j].critical :: IsFirstAlike(x, diagnostics, j)
  {
    var errors := Compact(x, diagnostics, allowed).errors;
    var dropped := OnePerFingerprint(errors).dropped;
    CompactionIsExact(x, diagnostics, allowed);
    FirstPerKeyParts(errors, FingerprintOf);
    forall j | 0 <= j < |diagnostics|
      ensures ErrorOf(x, diagnostics[j]) in dropped <==> !IsFirstAlike(x, diagnostics, j)
    {
      ErrorIsDroppedIff(x, diagnostics, allowed, j);
    }
    forall e | e in dropped
      ensures exists j :: 0 <= j < |diagnostics| && ErrorOf(x, diagnostics[j]) == e
    {
      assert e in multiset(errors);
      var k :| 0 <= k < |errors| && errors[k] == e;
      var j := ErrorStems(x, diagnostics, errors, k);
    }
  }

  // ---- Inputs for which this shows ----

  /** Two acceptable diagnostics that are alike, the critical one with the greater identifier. */
  predicate CriticalIsLater(x: Texts, d: Diagnostic, e: Diagnostic) {
    && Alike(x, d, e) && !d.critical && e.critical && IdLess(d.id, e.id) && PlainId(d.id) && PlainId(e.id)
    && d.dataClass == Public && e.dataClass == Public
    && x.normalize(d.message).value != "" && x.normalize(e.message).value != ""
  }

  predicate IsDropped(x: Texts, d: Diagnostic, e: Diagnostic) {
    var r := Compact(x, [d, e], {d.command});
    r.Compacted? && ErrorOf(x, e) in OnePerFingerprint(r.errors).dropped
  }

  /** Of two diagnostics that are alike the critical one is dropped when it has the greater identifier. */
  lemma CriticalErrorIsDropped(x: Texts, d: Diagnostic, e: Diagnostic)
    requires Injective(x) && Identifies(x) && CriticalIsLater(x, d, e)
    ensures IsDropped(x, d, e)
  {
    var diagnostics := [d, e];
    IdLessTotal(d.id, e.id);
    AlikeMembers(x, d, e);
    assert Alike(x, diagnostics[0], diagnostics[1]);
    ErrorIsDroppedIff(x, diagnostics, {d.command}, 1);
  }

  /** So a critical diagnostic is lost to one that differs in identifier and criticality only. */
  lemma CriticalTwinIsDropped(x: Texts, d: Diagnostic, id: string)
    requires Injective(x) && Identifies(x)
    requires !d.critical && IdLess(d.id, id) && PlainId(d.id) && PlainId(id) && d.dataClass == Public
    requires x.normalize(d.message).value != ""
    ensures IsDropped(x, d, d.(id := id, critical := true))
  {
    CriticalErrorIsDropped(x, d, d.(id := id, critical := true));
  }

  /** A letter with its accent, as one character and as two that NFC puts together. */
  const COMPOSED: string := "\U{00E9}"
  const DECOMPOSED: string := "e\U{0301}"

  /** And to one with another message, when the two differ in characters that NFC puts together only. */
  lemma CriticalVariantIsDropped(x: Texts, d: Diagnostic, id: string)
    requires Injective(x) && Identifies(x)
    requires !d.critical && IdLess(d.id, id) && PlainId(d.id) && PlainId(id) && d.dataClass == Public
    requires d.message == COMPOSED
    requires x.normalize(COMPOSED).value == COMPOSED && x.normalize(DECOMPOSED).value == DECOMPOSED
    requires x.nfc(COMPOSED) == COMPOSED && x.nfc(DECOMPOSED) == COMPOSED
    ensures var e := d.(id := id, critical := true, message := DECOMPOSED);
            IsDropped(x, d, e) && IdentityOf(x, d) != IdentityOf(x, e)
  {
    CriticalErrorIsDropped(x, d, d.(id := id, critical := true, message := DECOMPOSED));
  }

  lemma OnlyOneIsKept<T>(all: multiset<T>, kept: seq<T>, dropped: seq<T>, a: T, b: T)
    requires a != b && all == multiset{a, b} && all == multiset(kept) + multiset(dropped) && b in dropped
    ensures forall e | e in kept :: e == a
  {
    forall e | e in kept
      ensures e == a
    {
      assert e in multiset(kept) && b in multiset(dropped);
      assert e in all;
      assert all[b] == 1;
    }
  }

  lemma OnlyPlainErrorIsKept(x: Texts, d: Diagnostic, e: Diagnostic)
    requires Injective(x) && Identifies(x) && CriticalIsLater(x, d, e)
    ensures var r := Compact(x, [d, e], {d.command});
            r.Compacted? && forall kept | kept in OnePerFingerprint(r.errors).kept :: kept == ErrorOf(x, d)
  {
    CriticalErrorIsDropped(x, d, e);
    var all := Compact(x, [d, e], {d.command}).errors;
    TwoErrors(x, d, e, {d.command});
    FirstPerKeyParts(all, FingerprintOf);
    OnlyOneIsKept(multiset(all), OnePerFingerprint(all).kept, OnePerFingerprint(all).dropped,
                  ErrorOf(x, d), ErrorOf(x, e));
  }

  lemma TwoMapped<T, U>(a: T, b: T, f: T -> U)
    ensures Mapped([a, b], f) == [f(a), f(b)]
  {
  }

  lemma TwoErrors(x: Texts, a: Diagnostic, b: Diagnostic, allowed: set<string>)
    requires Injective(x) && IdLess(a.id, b.id) && Compact(x, [a, b], allowed).Compacted?
    ensures multiset(Compact(x, [a, b], allowed).errors) == multiset{ErrorOf(x, a), ErrorOf(x, b)}
    ensures ErrorOf(x, a) != ErrorOf(x, b)
  {
    IdLessTotal(a.id, b.id);
    var diagnostics := [a, b];
    assert DistinctIds(diagnostics);
    CompactionIsExact(x, diagnostics, allowed);
    TwoMapped(a, b, MakeError(x));
    assert MakeError(x)(a) == ErrorOf(x, a) && MakeError(x)(b) == ErrorOf(x, b);
  }

  /** A message of one blank passes the input schema, normalises to nothing, and makes the compaction throw. */
  lemma BlankMessageThrows(x: Texts, d: Diagnostic)
    requires d.dataClass == Public && d.message == " " && x.normalize(" ").value == ""
    ensures Compact(x, [d], {d.command}) == Thrown
  {
    assert [d][0] == d;
  }
}
