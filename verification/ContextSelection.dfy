/**
 What the context builder starts from: excerpts without duplicates, compacted hunks and errors; and the build as
 a whole, which does not depend on the order of its inputs.
 */
module ContextSelection {
  import opened Prelude
  import opened PromptBuilder
  import opened ContextPruning
  import opened TextOrder
  import opened Sorting
  import Diffs = DiffCompaction
  import Errors = ErrorCompaction
  import Integrity = ContextIntegrity
  import Reasons = IntegrityReasons

  type Excerpt = Integrity.Excerpt

  // ---- Excerpts without duplicates ----

  /** Critical excerpts come first, then the more telling kinds and the smaller priorities. */
  predicate Worthier(a: Excerpt, b: Excerpt) {
    if a.critical != b.critical then a.critical
    else if a.kind.Rank() != b.kind.Rank() then a.kind.Rank() < b.kind.Rank()
    else if a.priority != b.priority then a.priority < b.priority
    else if a.path != b.path then IdLess(a.path, b.path)
    else if a.startLine != b.startLine then a.startLine < b.startLine
    else IdLess(a.id, b.id)
  }

  predicate Above(a: Excerpt, b: Excerpt) {
    if a.path != b.path then IdLess(a.path, b.path)
    else if a.startLine != b.startLine then a.startLine < b.startLine
    else if a.endLine != b.endLine then a.endLine < b.endLine
    else IdLess(a.id, b.id)
  }

  function ContentAt(e: Excerpt): (string, string) { (e.path, e.contentHash) }

  /** What is kept is in the order of places, what is dropped in the order of worth. */
  function Deduplicated(excerpts: seq<Excerpt>): Parted<Excerpt> {
    var parted := FirstPerKey(Sorted(excerpts, Worthier), ContentAt);
    Parted(Sorted(parted.kept, Above), parted.dropped)
  }

  function ExcerptId(e: Excerpt): string { e.id }

  predicate DistinctExcerpts(excerpts: seq<Excerpt>) {
    KeysDiffer(excerpts, ExcerptId)
  }

  lemma WorthierTransitive(a: Excerpt, b: Excerpt, c: Excerpt)
    requires Worthier(a, b) && Worthier(b, c)
    ensures Worthier(a, c)
  {
    PathsTransitive(a, b, c);
  }

  lemma AboveTransitive(a: Excerpt, b: Excerpt, c: Excerpt)
    requires Above(a, b) && Above(b, c)
    ensures Above(a, c)
  {
    PathsTransitive(a, b, c);
  }

  lemma PathsTransitive(a: Excerpt, b: Excerpt, c: Excerpt)
    ensures IdLess(a.path, b.path) && IdLess(b.path, c.path) ==> IdLess(a.path, c.path)
    ensures IdLess(a.id, b.id) && IdLess(b.id, c.id) ==> IdLess(a.id, c.id)
    ensures IdLess(a.path, b.path) && IdLess(b.path, c.path) ==> a.path != c.path
  {
    if IdLess(a.path, b.path) && IdLess(b.path, c.path) {
      IdLessTransitive(a.path, b.path, c.path);
      IdLessTotal(a.path, c.path);
    }
    if IdLess(a.id, b.id) && IdLess(b.id, c.id) {
      IdLessTransitive(a.id, b.id, c.id);
    }
  }

  lemma OrdersAreTotal(a: Excerpt, b: Excerpt)
    ensures Worthier(a, b) || Worthier(b, a) || a.id == b.id
    ensures Above(a, b) || Above(b, a) || a.id == b.id
    ensures !Worthier(a, a) && !Above(a, a)
  {
    IdLessTotal(a.path, b.path);
    IdLessTotal(a.id, b.id);
    IdLessTotal(a.id, a.id);
  }

  lemma OrdersAreStrict()
    ensures StrictOrder(Worthier) && StrictOrder(Above)
  {
    forall a
      ensures !Worthier(a, a) && !Above(a, a)
    {
      OrdersAreTotal(a, a);
    }
    forall a, b, c | Worthier(a, b) && Worthier(b, c)
      ensures Worthier(a, c)
    {
      WorthierTransitive(a, b, c);
    }
    forall a, b, c | Above(a, b) && Above(b, c)
      ensures Above(a, c)
    {
      AboveTransitive(a, b, c);
    }
  }

  lemma ExcerptsAreComparable(excerpts: seq<Excerpt>)
    requires DistinctExcerpts(excerpts)
    ensures Comparable(excerpts, Worthier) && Comparable(excerpts, Above)
  {
    forall i, j | 0 <= i < j < |excerpts|
      ensures Worthier(excerpts[i], excerpts[j]) || Worthier(excerpts[j], excerpts[i])
      ensures Above(excerpts[i], excerpts[j]) || Above(excerpts[j], excerpts[i])
    {
      assert ExcerptId(excerpts[i]) != ExcerptId(excerpts[j]);
      OrdersAreTotal(excerpts[i], excerpts[j]);
    }
  }

  /** A worthier excerpt of the same content stands for this one. */
  predicate StandsFor(kept: seq<Excerpt>, dropped: Excerpt) {
    exists k | 0 <= k < |kept| :: ContentAt(kept[k]) == ContentAt(dropped) && Worthier(kept[k], dropped)
  }

  /** What both steps of the deduplication make of distinct excerpts. */
  lemma DeduplicationSteps(excerpts: seq<Excerpt>)
    requires DistinctExcerpts(excerpts)
    ensures var sorted := Sorted(excerpts, Worthier);
            var kept := FirstPerKey(sorted, ContentAt).kept;
            && Ascending(sorted, Worthier) && multiset(sorted) == multiset(excerpts)
            && Ascending(Deduplicated(excerpts).kept, Above) && multiset(Deduplicated(excerpts).kept) == multiset(kept)
  {
    var sorted := Sorted(excerpts, Worthier);
    OrdersAreStrict();
    ExcerptsAreComparable(excerpts);
    SortedIs(excerpts, Worthier);
    FirstPerKeyParts(sorted, ContentAt);
    PartDiffers(excerpts, FirstPerKey(sorted, ContentAt).kept, ExcerptId);
    ExcerptsAreComparable(FirstPerKey(sorted, ContentAt).kept);
    SortedIs(FirstPerKey(sorted, ContentAt).kept, Above);
  }

  /**
   Deduplication divides the excerpts; those kept differ in content and stand in order; and a worthier excerpt of
   the same content stands for each that is dropped.
   */
  lemma DeduplicationIsSound(excerpts: seq<Excerpt>)
    requires DistinctExcerpts(excerpts)
    ensures var r := Deduplicated(excerpts);
            && multiset(excerpts) == multiset(r.kept) + multiset(r.dropped)
            && Ascending(r.kept, Above) && KeysDiffer(r.kept, ContentAt)
            && forall d | d in r.dropped :: StandsFor(r.kept, d)
  {
    var sorted := Sorted(excerpts, Worthier);
    var parted, r := FirstPerKey(sorted, ContentAt), Deduplicated(excerpts);
    DeduplicationSteps(excerpts);
    FirstPerKeyParts(sorted, ContentAt);
    DroppedAreRepresented(sorted, ContentAt);
    PartDiffers(parted.kept, r.kept, ContentAt);
    forall d | d in r.dropped
      ensures StandsFor(r.kept, d)
    {
      var m :| 0 <= m < |parted.dropped| && parted.dropped[m] == d;
      assert RepresentedBy(sorted, parted.kept, d, ContentAt);
      RepresentativeIsWorthier(sorted, parted.kept, r.kept, d);
    }
  }

  lemma RepresentativeIsWorthier(sorted: seq<Excerpt>, kept: seq<Excerpt>, placed: seq<Excerpt>, d: Excerpt)
    requires Ascending(sorted, Worthier) && RepresentedBy(sorted, kept, d, ContentAt)
             && multiset(placed) == multiset(kept)
    ensures StandsFor(placed, d)
  {
    var k :| 0 <= k < |kept| && ContentAt(kept[k]) == ContentAt(d) && Precedes(sorted, kept[k], d);
    var i, j :| 0 <= i < j < |sorted| && sorted[i] == kept[k] && sorted[j] == d;
    assert Worthier(sorted[i], sorted[j]);
    assert kept[k] in multiset(placed);
    var l :| 0 <= l < |placed| && placed[l] == kept[k];
    assert ContentAt(placed[l]) == ContentAt(d) && Worthier(placed[l], d);
  }

  /** Unlike hunks and errors, a critical excerpt gives way only to a critical one of the same content. */
  lemma CriticalContentIsKept(excerpts: seq<Excerpt>, e: Excerpt)
    requires DistinctExcerpts(excerpts) && e in excerpts && e.critical
    ensures exists k :: 0 <= k < |Deduplicated(excerpts).kept| && Deduplicated(excerpts).kept[k].critical
                        && ContentAt(Deduplicated(excerpts).kept[k]) == ContentAt(e)
  {
    var r := Deduplicated(excerpts);
    DeduplicationIsSound(excerpts);
    assert e in multiset(excerpts);
    if e in r.kept {
      var k :| 0 <= k < |r.kept| && r.kept[k] == e;
    } else {
      assert e in r.dropped && StandsFor(r.kept, e);
      var k :| 0 <= k < |r.kept| && ContentAt(r.kept[k]) == ContentAt(e) && Worthier(r.kept[k], e);
    }
  }

  lemma ExcerptsIgnoreOrder(a: seq<Excerpt>, b: seq<Excerpt>)
    requires DistinctExcerpts(a) && DistinctExcerpts(b) && multiset(a) == multiset(b)
    ensures Deduplicated(a) == Deduplicated(b)
  {
    OrdersAreStrict();
    ExcerptsAreComparable(a);
    ExcerptsAreComparable(b);
    SortedIgnoresOrder(a, b, Worthier);
  }

  method DeduplicateExcerpts(excerpts: seq<Excerpt>) returns (r: Parted<Excerpt>)
    ensures r == Deduplicated(excerpts)
  {
    var sorted := Sorted(excerpts, Worthier);
    var parted := KeepFirst(sorted, ContentAt);
    r := Parted(Sorted(parted.kept, Above), parted.dropped);
  }

  // ---- The start of a build ----

  datatype Budget = Budget(configured: bool, calls: Option<int>, inputTokens: Option<int>, outputTokens: Option<int>)
  {
    predicate Usable() { configured && IsPositive(calls) && IsPositive(inputTokens) && IsPositive(outputTokens) }
  }

  predicate IsPositive(n: Option<int>) { n.Some? && n.value > 0 }

  datatype Input = Input(
    excerpts: seq<Excerpt>, hunks: seq<Diffs.Hunk>, diagnostics: seq<Errors.Diagnostic>, invariants: seq<Item>,
    request: Integrity.Request, allowed: set<string>, budget: Budget)

  /** What is left abstract: the checks of integrity, texts of hunks and errors, and the sorting of codes. */
  datatype Tools = Tools(
    checks: Integrity.Checks, texts: Errors.Texts, hunkText: Diffs.Hunk -> string,
    errorText: Errors.CompactError -> string, list: set<string> -> seq<string>)

  /** `SchemaRefused`: the input does not parse. `ErrorsThrow`: an exception that the build does not catch. */
  datatype Refusal =
    | SchemaRefused
    | BudgetUnusable
    | IntegrityStopped(reason: Integrity.Reason)
    | DiffInvalid
    | ErrorsRefused(refusal: Errors.Refusal)
    | ErrorsThrow

  datatype Prepared = Prepared(
    start: Selection, deduplicatedExcerpts: seq<string>, excludedHunks: seq<string>, deduplicatedHunks: seq<string>,
    reasons: seq<string>)

  function ItemOfExcerpt(e: Excerpt): Item {
    Item(ExcerptItem, e.id, e.critical, e.priority, e.kind.Rank(), e.kind.FileRange?, e.content)
  }

  function ItemOfHunk(x: Tools): Diffs.Hunk -> Item {
    (h: Diffs.Hunk) => Item(DiffItem, h.id, h.critical, h.priority, 0, false, x.hunkText(h))
  }

  function ItemOfError(x: Tools): Errors.CompactError -> Item {
    (e: Errors.CompactError) => Item(ErrorItem, e.id, e.critical, e.priority, 0, false, x.errorText(e))
  }

  function HunkId(h: Diffs.Hunk): string { h.id }

  function Sifted(x: Tools, input: Input): Option<Diffs.Sifted> {
    Diffs.Compact(x.checks.tests, input.hunks, input.request.relevant)
  }

  function Compacted(x: Tools, input: Input): Errors.Compaction {
    Errors.Compact(x.texts, input.diagnostics, input.allowed)
  }

  function Assembled(
      x: Tools, excerpts: Parted<Excerpt>, hunks: Diffs.Sifted, errors: seq<Errors.CompactError>, invariants: seq<Item>,
      reasons: set<string>): Prepared
  {
    Prepared(
      Selection(Mapped(excerpts.kept, ItemOfExcerpt), Mapped(hunks.selected, ItemOfHunk(x)),
                Mapped(errors, ItemOfError(x)), invariants),
      Sorted(Mapped(excerpts.dropped, ExcerptId), IdLess), Sorted(Mapped(hunks.excluded, HunkId), IdLess),
      Sorted(Mapped(hunks.deduplicated, HunkId), IdLess), x.list(reasons))
  }

  function Prepare(x: Tools, input: Input): Result<Prepared, Refusal> {
    if Sifted(x, input).None? then Err(DiffInvalid)
    else
      match Compacted(x, input)
      case Stop(refusal) => Err(ErrorsRefused(refusal))
      case Thrown => Err(ErrorsThrow)
      case Compacted(errors, reasons) =>
        Ok(Assembled(x, Deduplicated(input.excerpts), Sifted(x, input).value, Errors.OnePerFingerprint(errors).kept,
                     input.invariants, reasons))
  }

  /** Identifiers are distinct, as the input schema demands. */
  ghost predicate DistinctInput(input: Input) {
    && DistinctExcerpts(input.excerpts) && Diffs.DistinctIds(input.hunks) && Errors.DistinctIds(input.diagnostics)
    && ItemsOf(input.invariants, InvariantItem)
  }

  function ItemId(item: Item): string { item.id }

  lemma {:induction false} FormOf(items: seq<Item>, c: Category)
    requires (forall item | item in items :: item.category == c) && KeysDiffer(items, ItemId)
    ensures ItemsOf(items, c)
  {
    if items != [] {
      var front, last := items[..|items| - 1], items[|items| - 1];
      FormOf(front, c);
      forall item | item in front
        ensures item.id != last.id
      {
        var i :| 0 <= i < |front| && front[i] == item;
        assert ItemId(items[i]) != ItemId(last);
      }
    }
  }

  /** Items made of things with distinct identifiers, each with its identifier. */
  lemma MappedForm<T>(things: seq<T>, f: T -> Item, id: T -> string, c: Category)
    requires KeysDiffer(things, id) && forall t :: f(t).id == id(t) && f(t).category == c
    ensures ItemsOf(Mapped(things, f), c)
  {
    var items := Mapped(things, f);
    forall i, j | 0 <= i < j < |items|
      ensures ItemId(items[i]) != ItemId(items[j])
    {
      assert id(things[i]) != id(things[j]);
    }
    FormOf(items, c);
  }

  lemma HunksDiffer(hunks: seq<Diffs.Hunk>)
    requires Diffs.DistinctIds(hunks)
    ensures KeysDiffer(hunks, HunkId)
  {
  }

  function ErrorId(e: Errors.CompactError): string { e.id }

  lemma ErrorsDiffer(x: Errors.Texts, diagnostics: seq<Errors.Diagnostic>, errors: seq<Errors.CompactError>)
    requires Errors.DistinctIds(diagnostics) && multiset(errors) <= multiset(Mapped(diagnostics, Errors.MakeError(x)))
    ensures KeysDiffer(errors, ErrorId)
  {
    var all := Mapped(diagnostics, Errors.MakeError(x));
    forall i, j | 0 <= i < j < |all|
      ensures ErrorId(all[i]) != ErrorId(all[j])
    {
      assert all[i].id == diagnostics[i].id && all[j].id == diagnostics[j].id;
    }
    PartDiffers(all, errors, ErrorId);
  }

  lemma ExcerptsForm(excerpts: seq<Excerpt>)
    requires DistinctExcerpts(excerpts)
    ensures ItemsOf(Mapped(Deduplicated(excerpts).kept, ItemOfExcerpt), ExcerptItem)
  {
    DeduplicationIsSound(excerpts);
    PartDiffers(excerpts, Deduplicated(excerpts).kept, ExcerptId);
    MappedForm(Deduplicated(excerpts).kept, ItemOfExcerpt, ExcerptId, ExcerptItem);
  }

  lemma HunksForm(x: Tools, input: Input)
    requires Diffs.DistinctIds(input.hunks) && Sifted(x, input).Some?
    ensures ItemsOf(Mapped(Sifted(x, input).value.selected, ItemOfHunk(x)), DiffItem)
  {
    var hunks := Sifted(x, input).value.selected;
    Diffs.CompactionIsSound(x.checks.tests, input.hunks, input.request.relevant);
    HunksDiffer(input.hunks);
    PartDiffers(input.hunks, hunks, HunkId);
    MappedForm(hunks, ItemOfHunk(x), HunkId, DiffItem);
  }

  lemma ErrorsForm(x: Tools, input: Input)
    requires Errors.DistinctIds(input.diagnostics) && Errors.Injective(x.texts) && Compacted(x, input).Compacted?
    ensures ItemsOf(Mapped(Errors.OnePerFingerprint(Compacted(x, input).errors).kept, ItemOfError(x)), ErrorItem)
  {
    var all := Compacted(x, input).errors;
    var errors := Errors.OnePerFingerprint(all).kept;
    Errors.CompactionIsExact(x.texts, input.diagnostics, input.allowed);
    FirstPerKeyParts(all, Errors.FingerprintOf);
    ErrorsDiffer(x.texts, input.diagnostics, errors);
    MappedForm(errors, ItemOfError(x), ErrorId, ErrorItem);
  }

  lemma FourForms(s: Selection)
    requires ItemsOf(s.excerpts, ExcerptItem) && ItemsOf(s.diffs, DiffItem) && ItemsOf(s.errors, ErrorItem)
    requires ItemsOf(s.invariants, InvariantItem)
    ensures WellFormed(s)
  {
    forall c
      ensures ItemsOf(s.Of(c), c)
    {
      match c
      case ExcerptItem =>
      case DiffItem =>
      case ErrorItem =>
      case InvariantItem =>
    }
  }

  lemma AssembledForm(
      x: Tools, excerpts: Parted<Excerpt>, hunks: Diffs.Sifted, errors: seq<Errors.CompactError>, invariants: seq<Item>,
      reasons: set<string>)
    requires ItemsOf(Mapped(excerpts.kept, ItemOfExcerpt), ExcerptItem)
    requires ItemsOf(Mapped(hunks.selected, ItemOfHunk(x)), DiffItem)
    requires ItemsOf(Mapped(errors, ItemOfError(x)), ErrorItem) && ItemsOf(invariants, InvariantItem)
    ensures WellFormed(Assembled(x, excerpts, hunks, errors, invariants, reasons).start)
  {
    FourForms(Assembled(x, excerpts, hunks, errors, invariants, reasons).start);
  }

  /** A prepared selection is one that the pruning loop can work on. */
  lemma PreparedIsWellFormed(x: Tools, input: Input)
    requires DistinctInput(input) && Errors.Injective(x.texts) && Prepare(x, input).Ok?
    ensures WellFormed(Prepare(x, input).value.start)
  {
    ExcerptsForm(input.excerpts);
    HunksForm(x, input);
    ErrorsForm(x, input);
    AssembledForm(x, Deduplicated(input.excerpts), Sifted(x, input).value,
                  Errors.OnePerFingerprint(Compacted(x, input).errors).kept, input.invariants,
                  Compacted(x, input).reasons);
  }

  /** The same excerpts, hunks and diagnostics, in whatever order. */
  ghost predicate Permuted(a: Input, b: Input) {
    && multiset(a.excerpts) == multiset(b.excerpts) && multiset(a.hunks) == multiset(b.hunks)
    && multiset(a.diagnostics) == multiset(b.diagnostics)
    && a.invariants == b.invariants && a.request == b.request && a.allowed == b.allowed && a.budget == b.budget
  }

  lemma PreparationIgnoresOrder(x: Tools, a: Input, b: Input)
    requires DistinctInput(a) && DistinctInput(b) && Errors.Injective(x.texts) && Permuted(a, b)
    ensures Prepare(x, a) == Prepare(x, b)
  {
    ExcerptsIgnoreOrder(a.excerpts, b.excerpts);
    Diffs.CompactionIgnoresOrder(x.checks.tests, a.hunks, b.hunks, a.request.relevant);
    Errors.CompactionIgnoresOrder(x.texts, a.diagnostics, b.diagnostics, a.allowed);
  }

  // ---- The build as a whole ----

  function SettingOf(base: Setting, p: Prepared): Setting {
    base.(deduplicatedExcerpts := p.deduplicatedExcerpts, excludedHunks := p.excludedHunks,
          deduplicatedHunks := p.deduplicatedHunks, reasons := p.reasons)
  }

  /** Texts that no pruning touches: those of the request, and the invariants. */
  function Screened(input: Input): Integrity.Request {
    input.request.(texts := input.request.texts + Mapped(input.invariants, ItemContent))
  }

  function ItemContent(item: Item): string { item.content }

  function MaterialOf(input: Input): Integrity.Material {
    Integrity.Material(input.excerpts, input.hunks, input.diagnostics)
  }

  function WithMaterial(input: Input, m: Integrity.Material): Input {
    input.(excerpts := m.excerpts, hunks := m.hunks, diagnostics := m.diagnostics)
  }

  function Normalized(x: Tools, input: Input): Input {
    WithMaterial(input, Integrity.Normalized(x.checks, MaterialOf(input)))
  }

  /** What a build of valid, normalised input answers. */
  ghost predicate Completes(x: Tools, base: Setting, input: Input, r: Result<Outcome, Refusal>) {
    match Prepare(x, input)
    case Err(refusal) => r == Err(refusal)
    case Ok(p) => r.Ok? && exists removed :: Reaches(SettingOf(base, p), p.start, removed, r.value)
  }

  /** What a build answers; `None` stands for an input that the schema refuses. */
  ghost predicate Builds(x: Tools, base: Setting, parsed: Option<Input>, r: Result<Outcome, Refusal>) {
    match parsed
    case None => r == Err(SchemaRefused)
    case Some(input) =>
      if !input.budget.Usable() then r == Err(BudgetUnusable)
      else
        match Integrity.Verdict(x.checks, Screened(input), MaterialOf(input))
        case Some(reason) => r == Err(IntegrityStopped(reason))
        case None => Completes(x, base, Normalized(x, input), r)
  }

  lemma NormalizedIsDistinct(x: Tools, input: Input)
    requires DistinctInput(input)
    ensures DistinctInput(Normalized(x, input))
  {
    var normal := Normalized(x, input);
    forall i, j | 0 <= i < j < |normal.excerpts|
      ensures ExcerptId(normal.excerpts[i]) != ExcerptId(normal.excerpts[j])
    {
      assert ExcerptId(input.excerpts[i]) != ExcerptId(input.excerpts[j]);
    }
    forall i, j | 0 <= i < j < |normal.hunks|
      ensures normal.hunks[i].id != normal.hunks[j].id
    {
      assert input.hunks[i].id != input.hunks[j].id;
    }
  }

  method BuildContext(x: Tools, base: Setting, parsed: Option<Input>) returns (r: Result<Outcome, Refusal>)
    requires Errors.Injective(x.texts) && (parsed.Some? ==> DistinctInput(parsed.value))
    ensures Builds(x, base, parsed, r)
  {
    if parsed.None? {
      return Err(SchemaRefused);
    }
    var input := parsed.value;
    if !input.budget.Usable() {
      return Err(BudgetUnusable);
    }
    var integrity := Integrity.ValidateIntegrity(x.checks, Screened(input), MaterialOf(input));
    if integrity.Err? {
      return Err(IntegrityStopped(integrity.error));
    }
    NormalizedIsDistinct(x, input);
    r := CompleteBuild(x, base, WithMaterial(input, integrity.value));
  }

  method CompleteBuild(x: Tools, base: Setting, input: Input) returns (r: Result<Outcome, Refusal>)
    requires DistinctInput(input) && Errors.Injective(x.texts)
    ensures Completes(x, base, input, r)
  {
    var diff := Diffs.CompactDiffHunks(x.checks.tests, input.hunks, input.request.relevant);
    if diff.None? {
      return Err(DiffInvalid);
    }
    var errors := Errors.CompactErrors(x.texts, input.diagnostics, input.allowed);
    match errors {
      case Stop(refusal) => return Err(ErrorsRefused(refusal));
      case Thrown => return Err(ErrorsThrow);
      case Compacted(all, reasons) =>
        var deduplicated := DeduplicateExcerpts(input.excerpts);
        var unique := KeepFirst(all, Errors.FingerprintOf);
        var p := Assembled(x, deduplicated, diff.value, unique.kept, input.invariants, reasons);
        PreparedIsWellFormed(x, input);
        var outcome := Build(SettingOf(base, p), p.start);
        r := Ok(outcome);
    }
  }

  lemma CompletionIgnoresOrder(
      x: Tools, base: Setting, a: Input, b: Input, forA: Result<Outcome, Refusal>, forB: Result<Outcome, Refusal>)
    requires DistinctInput(a) && DistinctInput(b) && Errors.Injective(x.texts) && Permuted(a, b)
    requires Completes(x, base, a, forA) && Completes(x, base, b, forB)
    ensures forA == forB
  {
    PreparationIgnoresOrder(x, a, b);
    if Prepare(x, a).Ok? {
      var p := Prepare(x, a).value;
      OneOutcome(SettingOf(base, p), p.start, forA.value, forB.value);
    }
  }

  predicate IsIntegrityStop(r: Result<Outcome, Refusal>) { r.Err? && r.error.IntegrityStopped? }

  /**
   Neither the order of the excerpts nor that of the hunks or the diagnostics makes a difference to a build, except
   to the reason that a build gives when it stops for the integrity of its context.
   */
  lemma BuildIgnoresOrder(
      x: Tools, base: Setting, a: Input, b: Input, forA: Result<Outcome, Refusal>, forB: Result<Outcome, Refusal>)
    requires DistinctInput(a) && DistinctInput(b) && Errors.Injective(x.texts) && Permuted(a, b)
    requires Builds(x, base, Some(a), forA) && Builds(x, base, Some(b), forB)
    ensures forA == forB || (IsIntegrityStop(forA) && IsIntegrityStop(forB))
  {
    Integrity.IntegrityIgnoresOrder(x.checks, Screened(a), MaterialOf(a), MaterialOf(b));
    if a.budget.Usable() && Integrity.Verdict(x.checks, Screened(a), MaterialOf(a)).None? {
      NormalizedIsDistinct(x, a);
      NormalizedIsDistinct(x, b);
      CompletionIgnoresOrder(x, base, Normalized(x, a), Normalized(x, b), forA, forB);
    }
  }

  lemma PermutedIsDistinct(a: Input, b: Input)
    requires DistinctInput(a) && Permuted(a, b)
    ensures DistinctInput(b)
  {
    PartDiffers(a.excerpts, b.excerpts, ExcerptId);
    HunksDiffer(a.hunks);
    PartDiffers(a.hunks, b.hunks, HunkId);
    forall i, j | 0 <= i < j < |b.hunks|
      ensures b.hunks[i].id != b.hunks[j].id
    {
      assert HunkId(b.hunks[i]) != HunkId(b.hunks[j]);
    }
    PartDiffers(a.diagnostics, b.diagnostics, DiagnosticId);
    forall i, j | 0 <= i < j < |b.diagnostics|
      ensures b.diagnostics[i].id != b.diagnostics[j].id
    {
      assert DiagnosticId(b.diagnostics[i]) != DiagnosticId(b.diagnostics[j]);
    }
  }

  function DiagnosticId(d: Errors.Diagnostic): string { d.id }

  /** Every order of the parts of the input ends every build of it alike. */
  ghost predicate EndsAlike(x: Tools, base: Setting, a: Input) {
    forall b, forA, forB | Permuted(a, b) && Builds(x, base, Some(a), forA) && Builds(x, base, Some(b), forB) ::
      forA == forB
  }

  lemma StopsAlike(
      x: Tools, base: Setting, a: Input, b: Input, forA: Result<Outcome, Refusal>, forB: Result<Outcome, Refusal>)
    requires Builds(x, base, Some(a), forA) && Builds(x, base, Some(b), forB)
    requires IsIntegrityStop(forA) && IsIntegrityStop(forB)
    requires Integrity.Verdict(x.checks, Screened(a), MaterialOf(a))
             == Integrity.Verdict(x.checks, Screened(b), MaterialOf(b))
    ensures forA == forB
  {
    StopTellsReason(x, base, a, forA);
    StopTellsReason(x, base, b, forB);
  }

  lemma StopTellsReason(x: Tools, base: Setting, a: Input, forA: Result<Outcome, Refusal>)
    requires Builds(x, base, Some(a), forA) && IsIntegrityStop(forA)
    ensures a.budget.Usable()
    ensures Integrity.Verdict(x.checks, Screened(a), MaterialOf(a)) == Some(forA.error.reason)
  {
  }

  lemma FixedReasonEndsAlike(
      x: Tools, base: Setting, a: Input, b: Input, forA: Result<Outcome, Refusal>, forB: Result<Outcome, Refusal>)
    requires DistinctInput(a) && Errors.Injective(x.texts) && Permuted(a, b)
    requires !a.budget.Usable() || Reasons.ReasonIsFixed(x.checks, Screened(a), MaterialOf(a))
    requires Builds(x, base, Some(a), forA) && Builds(x, base, Some(b), forB)
    ensures forA == forB
  {
    PermutedIsDistinct(a, b);
    BuildIgnoresOrder(x, base, a, b, forA, forB);
    if IsIntegrityStop(forA) && IsIntegrityStop(forB) {
      StopTellsReason(x, base, a, forA);
      Reasons.FixedInAnyOrder(x.checks, Screened(a), MaterialOf(a), MaterialOf(b));
      StopsAlike(x, base, a, b, forA, forB);
    }
  }

  /**
   The order of the parts makes no difference at all to a build exactly when its budget is unusable or, of the first
   kind of parts with faults, all possible reasons for a stop are the same.
   */
  lemma BuildIgnoresOrderIff(x: Tools, base: Setting, a: Input)
    requires DistinctInput(a) && Errors.Injective(x.texts)
    ensures EndsAlike(x, base, a)
            <==> !a.budget.Usable() || Reasons.ReasonIsFixed(x.checks, Screened(a), MaterialOf(a))
  {
    if !a.budget.Usable() || Reasons.ReasonIsFixed(x.checks, Screened(a), MaterialOf(a)) {
      forall b, forA, forB | Permuted(a, b) && Builds(x, base, Some(a), forA) && Builds(x, base, Some(b), forB)
        ensures forA == forB
      {
        FixedReasonEndsAlike(x, base, a, b, forA, forB);
      }
    } else {
      var o := Reasons.AnotherOrderDiffers(x.checks, Screened(a), MaterialOf(a));
      StopsDiffer(x, base, a, o);
    }
  }

  lemma StopsDiffer(x: Tools, base: Setting, a: Input, o: Integrity.Material)
    requires a.budget.Usable() && Integrity.SameMaterial(MaterialOf(a), o)
    requires Integrity.Verdict(x.checks, Screened(a), o) != Integrity.Verdict(x.checks, Screened(a), MaterialOf(a))
    ensures !EndsAlike(x, base, a)
  {
    var b := WithMaterial(a, o);
    Integrity.IntegrityIgnoresOrder(x.checks, Screened(a), MaterialOf(a), o);
    var reasonA := Integrity.Verdict(x.checks, Screened(a), MaterialOf(a)).value;
    var reasonB := Integrity.Verdict(x.checks, Screened(b), MaterialOf(b)).value;
    assert Permuted(a, b);
    assert Builds(x, base, Some(a), Err(IntegrityStopped(reasonA)));
    assert Builds(x, base, Some(b), Err(IntegrityStopped(reasonB)));
  }

  lemma OneOutcome(e: Setting, start: Selection, first: Outcome, second: Outcome)
    requires exists removed :: Reaches(e, start, removed, first)
    requires exists removed :: Reaches(e, start, removed, second)
    ensures first == second
  {
    var a :| Reaches(e, start, a, first);
    var b :| Reaches(e, start, b, second);
    OutcomeIsDetermined(e, start, a, first, b, second);
  }

  // ---- Diagnostics that the build loses or fails on ----

  lemma ErrorsOfTheStart(x: Tools, input: Input)
    requires Sifted(x, input).Some? && Compacted(x, input).Compacted?
    ensures var kept := Errors.OnePerFingerprint(Compacted(x, input).errors).kept;
            Prepare(x, input).Ok? && Prepare(x, input).value.start.errors == Mapped(kept, ItemOfError(x))
  {
  }

  /** A critical diagnostic gives way to one that is alike and has a lesser identifier: no critical error is left. */
  lemma CriticalErrorIsLost(x: Tools, input: Input, d: Errors.Diagnostic, e: Errors.Diagnostic)
    requires Errors.Injective(x.texts) && Errors.Identifies(x.texts) && Errors.CriticalIsLater(x.texts, d, e)
    requires input.diagnostics == [d, e] && input.allowed == {d.command} && Sifted(x, input).Some?
    ensures Prepare(x, input).Ok? && forall item | item in Prepare(x, input).value.start.errors :: !item.critical
  {
    Errors.OnlyPlainErrorIsKept(x.texts, d, e);
    ErrorsOfTheStart(x, input);
    PlainItems(x, Errors.OnePerFingerprint(Compacted(x, input).errors).kept);
  }

  lemma PlainItems(x: Tools, errors: seq<Errors.CompactError>)
    requires forall e | e in errors :: !e.critical
    ensures forall item | item in Mapped(errors, ItemOfError(x)) :: !item.critical
  {
    var items := Mapped(errors, ItemOfError(x));
    forall item | item in items
      ensures !item.critical
    {
      var i :| 0 <= i < |items| && item == items[i];
      assert errors[i] in errors;
    }
  }

  lemma BlankMessageIsThrown(x: Tools, input: Input, d: Errors.Diagnostic)
    requires d.dataClass.Public? && d.message == " " && x.texts.normalize(" ").value == ""
    requires input.diagnostics == [d] && input.allowed == {d.command} && Sifted(x, input).Some?
    ensures Prepare(x, input) == Err(ErrorsThrow)
  {
    Errors.BlankMessageThrows(x.texts, d);
  }

  /** A diagnostic whose message is one blank ends a build that would otherwise go on with an exception. */
  lemma BlankMessageEndsTheBuild(
      x: Tools, base: Setting, input: Input, d: Errors.Diagnostic, r: Result<Outcome, Refusal>)
    requires d.dataClass.Public? && d.message == " " && x.texts.normalize(" ").value == ""
    requires input.diagnostics == [d] && input.allowed == {d.command} && input.budget.Usable()
    requires Integrity.Verdict(x.checks, Screened(input), MaterialOf(input)).None?
    requires Sifted(x, Normalized(x, input)).Some? && Builds(x, base, Some(input), r)
    ensures r == Err(ErrorsThrow)
  {
    BlankMessageIsThrown(x, Normalized(x, input), d);
  }
}
