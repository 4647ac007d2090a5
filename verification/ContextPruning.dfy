/**
 The context builder's pruning loop: while a limit is exceeded, the least valuable item that is not critical
 and counts towards an exceeded limit is removed.
 */
module ContextPruning {
  import opened Prelude
  import opened PromptBuilder
  import opened TextOrder

  datatype Limits = Limits(
    maxExcerptBytes: nat, maxDiffBytes: nat, maxErrorBytes: nat, maxInvariants: nat, maxItems: nat, maxPromptBytes: nat,
    askOnOverflow: bool)

  /** What stays the same while the loop runs. */
  datatype Setting = Setting(
    codec: Codec, limits: Limits, fixed: Fixed, contractOk: bool, sort: seq<string> -> seq<string>,
    deduplicatedExcerpts: seq<string>, excludedHunks: seq<string>, deduplicatedHunks: seq<string>, reasons: seq<string>)

  // ---- Limits ----

  datatype Excess = Excess(categories: set<Category>, global: bool)
  {
    predicate IsNone() { categories == {} && !global }
    predicate Concerns(item: Item) { global || item.category in categories }
  }

  predicate OverIn(e: Setting, s: Selection, category: Category) {
    match category
    case ExcerptItem =>
      exists i | 0 <= i < |s.excerpts| :: e.codec.bytes(s.excerpts[i].content) > e.limits.maxExcerptBytes
    case DiffItem => e.codec.bytes(e.codec.canonical(s.diffs)) > e.limits.maxDiffBytes
    case ErrorItem => e.codec.bytes(e.codec.canonical(s.errors)) > e.limits.maxErrorBytes
    case InvariantItem => |s.invariants| > e.limits.maxInvariants
  }

  function ItemCount(s: Selection): nat {
    |s.excerpts| + |s.diffs| + |s.errors| + |s.invariants|
  }

  function LimitState(e: Setting, s: Selection, promptBytes: nat): Excess {
    Excess((set c: Category | OverIn(e, s, c)),
           ItemCount(s) > e.limits.maxItems || promptBytes > e.limits.maxPromptBytes)
  }

  /** Every limit is met. */
  predicate WithinLimits(e: Setting, s: Selection, promptBytes: nat) {
    && (forall i | 0 <= i < |s.excerpts| :: e.codec.bytes(s.excerpts[i].content) <= e.limits.maxExcerptBytes)
    && e.codec.bytes(e.codec.canonical(s.diffs)) <= e.limits.maxDiffBytes
    && e.codec.bytes(e.codec.canonical(s.errors)) <= e.limits.maxErrorBytes
    && |s.invariants| <= e.limits.maxInvariants
    && ItemCount(s) <= e.limits.maxItems && promptBytes <= e.limits.maxPromptBytes
  }

  lemma NoExcessMeansWithin(e: Setting, s: Selection, promptBytes: nat)
    ensures LimitState(e, s, promptBytes).IsNone() <==> WithinLimits(e, s, promptBytes)
  {
    var excess := LimitState(e, s, promptBytes);
    assert forall c :: c in excess.categories <==> OverIn(e, s, c);
    assert ExcerptItem in excess.categories <==> OverIn(e, s, ExcerptItem);
    assert DiffItem in excess.categories <==> OverIn(e, s, DiffItem);
    assert ErrorItem in excess.categories <==> OverIn(e, s, ErrorItem);
    assert InvariantItem in excess.categories <==> OverIn(e, s, InvariantItem);
    if WithinLimits(e, s, promptBytes) {
      assert forall c :: !OverIn(e, s, c);
    }
  }

  // ---- The candidate to prune ----

  function CategoryRank(c: Category): nat {
    match c
    case DiffItem => 0
    case ErrorItem => 1
    case ExcerptItem => 2
    case InvariantItem => 3
  }

  /** `a` is pruned before `b`: lower worth first, then the kind, the category's name and the identifier. */
  predicate Sooner(a: Item, b: Item) {
    if a.priority != b.priority then a.priority > b.priority
    else if a.kindRank != b.kindRank then a.kindRank > b.kindRank
    else if a.category != b.category then CategoryRank(a.category) < CategoryRank(b.category)
    else IdLess(a.id, b.id)
  }

  lemma SoonerTotal(a: Item, b: Item)
    ensures Sooner(a, b) || Sooner(b, a) || (a.category == b.category && a.id == b.id)
    ensures !(Sooner(a, b) && Sooner(b, a))
  {
    IdLessTotal(a.id, b.id);
  }

  lemma SoonerTransitive(a: Item, b: Item, c: Item)
    requires Sooner(a, b) && Sooner(b, c)
    ensures Sooner(a, c)
  {
    if IdLess(a.id, b.id) && IdLess(b.id, c.id) {
      IdLessTransitive(a.id, b.id, c.id);
    }
  }

  function Candidates(s: Selection): seq<Item> {
    s.excerpts + s.diffs + s.errors + s.invariants
  }

  predicate Removable(item: Item, excess: Excess) {
    !item.critical && excess.Concerns(item)
  }

  /** The first of the removable items in the order of pruning. */
  function Soonest(items: seq<Item>, excess: Excess): Option<Item> {
    if items == [] then None
    else
      var rest := Soonest(items[1..], excess);
      if !Removable(items[0], excess) then rest
      else if rest.None? || Sooner(items[0], rest.value) then Some(items[0])
      else rest
  }

  lemma {:induction false} SoonestIs(items: seq<Item>, excess: Excess)
    ensures match Soonest(items, excess)
            case None => forall i | 0 <= i < |items| :: !Removable(items[i], excess)
            case Some(best) =>
              best in items && Removable(best, excess)
              && forall i | 0 <= i < |items| && Removable(items[i], excess) :: NotSooner(items[i], best)
  {
    if items != [] {
      var first, rest := items[0], Soonest(items[1..], excess);
      SoonestIs(items[1..], excess);
      forall i | 0 <= i < |items| && Removable(items[i], excess)
        ensures Soonest(items, excess).Some? && NotSooner(items[i], Soonest(items, excess).value)
      {
        if i > 0 {
          assert items[i] == items[1..][i - 1];
          if Removable(first, excess) && Sooner(first, rest.value) {
            NotSoonerThrough(items[i], rest.value, first);
          }
        } else {
          SoonerTotal(first, first);
          if rest.Some? {
            SoonerTotal(first, rest.value);
          }
        }
      }
    }
  }

  predicate NotSooner(item: Item, best: Item) {
    !Sooner(item, best)
  }

  lemma NotSoonerThrough(item: Item, middle: Item, first: Item)
    requires NotSooner(item, middle) && Sooner(first, middle)
    ensures NotSooner(item, first)
  {
    if Sooner(item, first) {
      SoonerTransitive(item, first, middle);
    }
  }

  // ---- Removing items ----

  predicate Contains(s: Selection, item: Item) {
    item in s.Of(item.category)
  }

  /** Each list holds items of its category, with distinct identifiers. */
  ghost predicate WellFormed(s: Selection) {
    forall c :: ItemsOf(s.Of(c), c)
  }

  ghost predicate ItemsOf(items: seq<Item>, c: Category) {
    items == []
    || (var front, last := items[..|items| - 1], items[|items| - 1];
        ItemsOf(front, c) && last.category == c && forall item | item in front :: item.id != last.id)
  }

  /** The items left when some have been removed, in their order. */
  function Left(items: seq<Item>, removed: seq<Item>): seq<Item> {
    if items == [] then []
    else
      var last := items[|items| - 1];
      var before := Left(items[..|items| - 1], removed);
      if last in removed then before else before + [last]
  }

  function After(start: Selection, removed: seq<Item>): Selection {
    Selection(Left(start.excerpts, removed), Left(start.diffs, removed), Left(start.errors, removed),
              Left(start.invariants, removed))
  }

  function WithoutId(items: seq<Item>, id: string): seq<Item> {
    if items == [] then []
    else
      var last := items[|items| - 1];
      var before := WithoutId(items[..|items| - 1], id);
      if last.id == id then before else before + [last]
  }

  lemma {:induction false} LeftIs(items: seq<Item>, removed: seq<Item>)
    ensures forall item :: item in Left(items, removed) <==> item in items && item !in removed
    ensures |Left(items, removed)| <= |items|
  {
    if items != [] {
      var front, last := items[..|items| - 1], items[|items| - 1];
      LeftIs(front, removed);
      assert items == front + [last];
    }
  }

  /** Filtering by identifier removes exactly the item that was chosen. */
  lemma {:induction false} RemovingOne(items: seq<Item>, c: Category, removed: seq<Item>, item: Item)
    requires ItemsOf(items, c) && item in items && item !in removed
    ensures WithoutId(Left(items, removed), item.id) == Left(items, removed + [item])
    ensures |Left(items, removed + [item])| == |Left(items, removed)| - 1
  {
    var front, last := items[..|items| - 1], items[|items| - 1];
    assert items == front + [last];
    LeftIs(front, removed);
    if last == item {
      NothingToRemove(front, c, removed, item);
    } else {
      RemovingOne(front, c, removed, item);
      assert last in removed + [item] <==> last in removed;
      if last !in removed {
        assert Left(items, removed)[..|Left(front, removed)|] == Left(front, removed);
      }
    }
  }

  lemma {:induction false} NothingToRemove(items: seq<Item>, c: Category, removed: seq<Item>, item: Item)
    requires ItemsOf(items, c) && forall other | other in items :: other.id != item.id
    ensures WithoutId(Left(items, removed), item.id) == Left(items, removed) == Left(items, removed + [item])
  {
    if items != [] {
      var front, last := items[..|items| - 1], items[|items| - 1];
      assert items == front + [last];
      NothingToRemove(front, c, removed, item);
      assert last in removed + [item] <==> last in removed;
      if last !in removed {
        assert Left(items, removed)[..|Left(front, removed)|] == Left(front, removed);
      }
    }
  }

  lemma {:induction false} OtherLists(items: seq<Item>, c: Category, removed: seq<Item>, item: Item)
    requires ItemsOf(items, c) && item.category != c
    ensures Left(items, removed + [item]) == Left(items, removed)
  {
    if items != [] {
      OtherLists(items[..|items| - 1], c, removed, item);
      assert items[|items| - 1] in removed + [item] <==> items[|items| - 1] in removed;
    }
  }

  // ---- What a build keeps and removes ----

  function Ids(items: seq<Item>): seq<string> {
    seq(|items|, i requires 0 <= i < |items| => items[i].id)
  }

  function ReportOn(e: Setting, removed: seq<Item>, originalBytes: nat, finalBytes: nat): Report {
    Report(e.deduplicatedExcerpts, e.excludedHunks, e.deduplicatedHunks, e.sort(Ids(removed)), e.sort(e.reasons),
           originalBytes, finalBytes)
  }

  function Render(e: Setting, s: Selection, report: Report): Result<Rendered, PromptError> {
    RenderPrompt(e.codec, ManifestOf(e.codec, e.fixed, s, report), e.contractOk)
  }

  function PromptBytes(e: Setting, s: Selection): nat {
    e.codec.bytes(PromptText(e.codec, e.fixed, s))
  }

  /** The next item to remove when these have been removed, or none. */
  function NextToPrune(e: Setting, start: Selection, removed: seq<Item>): Option<Item> {
    var s := After(start, removed);
    Soonest(Candidates(s), LimitState(e, s, PromptBytes(e, s)))
  }

  /** Each item is what `choose` gives for the items before it. */
  ghost predicate ChosenBy(choose: seq<Item> -> Option<Item>, items: seq<Item>) {
    forall i | 0 <= i < |items| :: choose(items[..i]) == Some(items[i])
  }

  lemma ChosenGrows(choose: seq<Item> -> Option<Item>, items: seq<Item>, item: Item)
    requires ChosenBy(choose, items) && choose(items) == Some(item)
    ensures ChosenBy(choose, items + [item])
  {
    var all := items + [item];
    assert all[..|items|] == items;
    assert forall i | 0 <= i < |items| :: all[..i] == items[..i];
  }

  lemma {:induction false} ChosenIsDetermined(choose: seq<Item> -> Option<Item>, a: seq<Item>, b: seq<Item>, n: nat)
    requires ChosenBy(choose, a) && ChosenBy(choose, b) && n <= |a| && n <= |b|
    ensures a[..n] == b[..n]
  {
    if n > 0 {
      ChosenIsDetermined(choose, a, b, n - 1);
      assert a[..n] == a[..n - 1] + [a[n - 1]] && b[..n] == b[..n - 1] + [b[n - 1]];
    }
  }

  /** The items were removed one after another, each the soonest to prune at its turn. */
  ghost predicate Greedy(e: Setting, start: Selection, removed: seq<Item>) {
    ChosenBy(before => NextToPrune(e, start, before), removed)
  }

  /** Nothing critical was removed, nothing twice, and everything removed was there. */
  ghost predicate FairlyRemoved(start: Selection, removed: seq<Item>) {
    && (forall i | 0 <= i < |removed| :: !removed[i].critical && Contains(start, removed[i]))
    && (forall i, j | 0 <= i < j < |removed| :: removed[i] != removed[j])
  }

  lemma CandidateIsThere(start: Selection, removed: seq<Item>, item: Item)
    requires WellFormed(start) && item in Candidates(After(start, removed))
    ensures Contains(start, item) && item !in removed
  {
    forall c
      ensures forall other | other in After(start, removed).Of(c) ::
              other.category == c && other in start.Of(c) && other !in removed
    {
      LeftIs(start.Of(c), removed);
      FormGivesCategory(start.Of(c), c);
    }
    var s := After(start, removed);
    assert item in s.Of(ExcerptItem) || item in s.Of(DiffItem) || item in s.Of(ErrorItem)
           || item in s.Of(InvariantItem);
  }

  lemma {:induction false} FormGivesCategory(items: seq<Item>, c: Category)
    requires ItemsOf(items, c)
    ensures forall item | item in items :: item.category == c
  {
    if items != [] {
      FormGivesCategory(items[..|items| - 1], c);
      assert items == items[..|items| - 1] + [items[|items| - 1]];
    }
  }

  lemma NextIsFair(e: Setting, start: Selection, removed: seq<Item>, item: Item)
    requires WellFormed(start) && NextToPrune(e, start, removed) == Some(item)
    ensures Contains(start, item) && item !in removed && !item.critical
  {
    var s := After(start, removed);
    SoonestIs(Candidates(s), LimitState(e, s, PromptBytes(e, s)));
    CandidateIsThere(start, removed, item);
  }

  lemma AnotherRemoved(e: Setting, start: Selection, removed: seq<Item>, item: Item)
    requires WellFormed(start) && Greedy(e, start, removed) && FairlyRemoved(start, removed)
    requires NextToPrune(e, start, removed) == Some(item)
    ensures Greedy(e, start, removed + [item]) && FairlyRemoved(start, removed + [item])
    ensures Contains(start, item) && item !in removed
  {
    NextIsFair(e, start, removed, item);
    ChosenGrows(before => NextToPrune(e, start, before), removed, item);
  }

  /** Removing one item from its list and leaving the others is what removing it from the selection means. */
  lemma AfterOneMore(start: Selection, removed: seq<Item>, item: Item)
    requires WellFormed(start) && Contains(start, item) && item !in removed
    ensures forall c :: After(start, removed + [item]).Of(c)
                        == if c == item.category then WithoutId(After(start, removed).Of(c), item.id)
                           else After(start, removed).Of(c)
    ensures ItemCount(After(start, removed + [item])) == ItemCount(After(start, removed)) - 1
  {
    forall c
      ensures After(start, removed + [item]).Of(c)
              == if c == item.category then WithoutId(After(start, removed).Of(c), item.id)
                else After(start, removed).Of(c)
      ensures |After(start, removed + [item]).Of(c)|
              == |After(start, removed).Of(c)| - if c == item.category then 1 else 0
    {
      if c == item.category {
        RemovingOne(start.Of(c), c, removed, item);
      } else {
        OtherLists(start.Of(c), c, removed, item);
      }
    }
    var (old_, new_) := (After(start, removed), After(start, removed + [item]));
    assert new_.Of(ExcerptItem) == new_.excerpts && old_.Of(ExcerptItem) == old_.excerpts;
    assert new_.Of(DiffItem) == new_.diffs && old_.Of(DiffItem) == old_.diffs;
    assert new_.Of(ErrorItem) == new_.errors && old_.Of(ErrorItem) == old_.errors;
    assert new_.Of(InvariantItem) == new_.invariants && old_.Of(InvariantItem) == old_.invariants;
  }

  /** What a selection and what was removed from it have in common: nothing; and together they are the start. */
  lemma Partition(start: Selection, removed: seq<Item>, item: Item)
    requires WellFormed(start) && FairlyRemoved(start, removed)
    ensures Contains(After(start, removed), item) <==> Contains(start, item) && item !in removed
    ensures Contains(start, item) && item.critical ==> Contains(After(start, removed), item)
  {
    LeftIs(start.Of(item.category), removed);
  }

  // ---- The loop ----

  datatype Outcome =
    | Ready(manifest: Manifest, prompt: string, bytes: nat)
    | ApprovalRequired(hash: string, required: nat, limit: nat, report: Report)
    | BudgetExceeded(hash: string, required: nat, limit: nat, report: Report)
    | BoundaryDenied
    | InputInvalid
    | FellThrough

  function FromError(error: PromptError): Outcome {
    if error == MarkerDenied then BoundaryDenied else InputInvalid
  }

  /** The fields of the selection that pruning reassigns. */
  class SelectionState {
    var excerpts: seq<Item>
    var diffs: seq<Item>
    var errors: seq<Item>
    var invariants: seq<Item>
    var prunedIds: seq<string>

    constructor (s: Selection)
      ensures Current() == s && prunedIds == []
    {
      excerpts, diffs, errors, invariants, prunedIds := s.excerpts, s.diffs, s.errors, s.invariants, [];
    }

    function Current(): Selection
      reads this
    {
      Selection(excerpts, diffs, errors, invariants)
    }

    method Prune(item: Item)
      modifies this
      ensures forall c :: Current().Of(c) == if c == item.category then WithoutId(old(Current()).Of(c), item.id)
                                             else old(Current()).Of(c)
      ensures prunedIds == old(prunedIds) + [item.id]
    {
      match item.category {
        case ExcerptItem => excerpts := WithoutId(excerpts, item.id);
        case DiffItem => diffs := WithoutId(diffs, item.id);
        case ErrorItem => errors := WithoutId(errors, item.id);
        case InvariantItem => invariants := WithoutId(invariants, item.id);
      }
      prunedIds := prunedIds + [item.id];
    }
  }

  lemma SameLists(a: Selection, b: Selection)
    requires forall c :: a.Of(c) == b.Of(c)
    ensures a == b
  {
    assert a.Of(ExcerptItem) == b.Of(ExcerptItem) && a.Of(DiffItem) == b.Of(DiffItem);
    assert a.Of(ErrorItem) == b.Of(ErrorItem) && a.Of(InvariantItem) == b.Of(InvariantItem);
  }

  /** The state after the removals: what is left, and the identifiers of what is not. */
  ghost predicate Holds(state: SelectionState, start: Selection, removed: seq<Item>)
    reads state
  {
    state.Current() == After(start, removed) && state.prunedIds == Ids(removed)
  }

  /** One more item is pruned. */
  method PruneNext(e: Setting, state: SelectionState, item: Item, ghost start: Selection, ghost removed: seq<Item>)
    requires WellFormed(start) && Holds(state, start, removed) && Contains(start, item) && item !in removed
    modifies state
    ensures Holds(state, start, removed + [item])
    ensures ItemCount(state.Current()) == ItemCount(old(state.Current())) - 1
  {
    AfterOneMore(start, removed, item);
    state.Prune(item);
    SameLists(state.Current(), After(start, removed + [item]));
    assert Ids(removed + [item]) == Ids(removed) + [item.id];
  }

  /** Nothing that counts towards the excess can be removed. */
  ghost predicate Stuck(e: Setting, s: Selection) {
    var excess := LimitState(e, s, PromptBytes(e, s));
    && !WithinLimits(e, s, PromptBytes(e, s))
    && forall item | item in Candidates(s) :: !Removable(item, excess)
  }

  /** What the outcome says about the selection it was reached with. */
  ghost predicate Justified(e: Setting, start: Selection, removed: seq<Item>, outcome: Outcome) {
    var s := After(start, removed);
    match outcome
    case Ready(manifest, prompt, bytes) =>
      && manifest.selection == s && manifest.fixed == e.fixed && manifest.report.pruned == e.sort(Ids(removed))
      && prompt == PromptText(e.codec, e.fixed, s) && bytes == PromptBytes(e, s) == manifest.report.finalBytes
      && WithinLimits(e, s, bytes)
    case ApprovalRequired(_, required, limit, report) =>
      e.limits.askOnOverflow && Stuck(e, s) && required == PromptBytes(e, s) && limit == e.limits.maxPromptBytes
      && report.pruned == e.sort(Ids(removed))
    case BudgetExceeded(_, required, limit, report) =>
      !e.limits.askOnOverflow && Stuck(e, s) && required == PromptBytes(e, s) && limit == e.limits.maxPromptBytes
      && report.pruned == e.sort(Ids(removed))
    case BoundaryDenied => exists report :: Render(e, s, report) == Err(MarkerDenied)
    case InputInvalid => exists report, error :: error != MarkerDenied && Render(e, s, report) == Err(error)
    case FellThrough => false
  }

  lemma ErrorIsJustified(e: Setting, start: Selection, removed: seq<Item>, report: Report)
    requires Render(e, After(start, removed), report).Err?
    ensures Justified(e, start, removed, FromError(Render(e, After(start, removed), report).error))
  {
    var error := Render(e, After(start, removed), report).error;
    assert Render(e, After(start, removed), report) == Err(error);
  }

  /** The outcome for a selection that needs no pruning or allows none. */
  function Conclude(
      e: Setting, s: Selection, prunedIds: seq<string>, originalBytes: nat, bytes: nat, within: bool): Outcome
  {
    var report := Report(e.deduplicatedExcerpts, e.excludedHunks, e.deduplicatedHunks, e.sort(prunedIds),
                         e.sort(e.reasons), originalBytes, bytes);
    var manifest := ManifestOf(e.codec, e.fixed, s, report);
    match Render(e, s, report)
    case Err(error) => FromError(error)
    case Ok(rendered) =>
      if within then Ready(manifest, rendered.prompt, rendered.bytes)
      else if e.limits.askOnOverflow then
        ApprovalRequired(manifest.hash, rendered.bytes, e.limits.maxPromptBytes, report)
      else BudgetExceeded(manifest.hash, rendered.bytes, e.limits.maxPromptBytes, report)
  }

  lemma RenderedBytes(e: Setting, s: Selection, report: Report)
    ensures Render(e, s, report).Ok? ==> Render(e, s, report).value.bytes == PromptBytes(e, s)
  {
  }

  lemma ConclusionIsJustified(e: Setting, start: Selection, removed: seq<Item>, originalBytes: nat, within: bool)
    requires within ==> WithinLimits(e, After(start, removed), PromptBytes(e, After(start, removed)))
    requires !within ==> Stuck(e, After(start, removed))
    ensures var s := After(start, removed);
            Justified(e, start, removed, Conclude(e, s, Ids(removed), originalBytes, PromptBytes(e, s), within))
  {
    var s := After(start, removed);
    var report := ReportOn(e, removed, originalBytes, PromptBytes(e, s));
    RenderedBytes(e, s, report);
    if Render(e, s, report).Err? {
      ErrorIsJustified(e, start, removed, report);
    }
  }

  lemma StuckWithoutNext(e: Setting, start: Selection, removed: seq<Item>)
    requires NextToPrune(e, start, removed).None?
    requires !WithinLimits(e, After(start, removed), PromptBytes(e, After(start, removed)))
    ensures Stuck(e, After(start, removed))
  {
    var s := After(start, removed);
    SoonestIs(Candidates(s), LimitState(e, s, PromptBytes(e, s)));
  }

  /** What a turn answers; nothing when it prunes and goes on. */
  function TurnOutcome(e: Setting, start: Selection, removed: seq<Item>, originalBytes: nat): Option<Outcome> {
    var s := After(start, removed);
    match Render(e, s, ReportOn(e, removed, originalBytes, 0))
    case Err(error) => Some(FromError(error))
    case Ok(rendered) =>
      var limits := LimitState(e, s, rendered.bytes);
      if limits.IsNone() then Some(Conclude(e, s, Ids(removed), originalBytes, rendered.bytes, true))
      else if Soonest(Candidates(s), limits).None? then
        Some(Conclude(e, s, Ids(removed), originalBytes, rendered.bytes, false))
      else None
  }

  function FirstReport(e: Setting): Report {
    Report(e.deduplicatedExcerpts, e.excludedHunks, e.deduplicatedHunks, e.sort([]), e.sort(e.reasons), 0, 0)
  }

  ghost predicate GoesOn(e: Setting, start: Selection, removed: seq<Item>, originalBytes: nat) {
    forall k | 0 <= k < |removed| :: TurnOutcome(e, start, removed[..k], originalBytes).None?
  }

  /** The build ends with this outcome, and no sooner than after these removals. */
  ghost predicate Ends(e: Setting, start: Selection, removed: seq<Item>, outcome: Outcome) {
    match Render(e, start, FirstReport(e))
    case Err(error) => removed == [] && outcome == FromError(error)
    case Ok(first) =>
      TurnOutcome(e, start, removed, first.bytes) == Some(outcome) && GoesOn(e, start, removed, first.bytes)
  }

  lemma GoesOnLonger(e: Setting, start: Selection, removed: seq<Item>, item: Item, originalBytes: nat)
    requires GoesOn(e, start, removed, originalBytes) && TurnOutcome(e, start, removed, originalBytes).None?
    ensures GoesOn(e, start, removed + [item], originalBytes)
  {
    var all := removed + [item];
    assert all[..|removed|] == removed;
    assert forall k | 0 <= k < |removed| :: all[..k] == removed[..k];
  }

  /** One turn of the loop: an outcome, or the item to prune next. */
  method Turn(e: Setting, state: SelectionState, originalBytes: nat, ghost start: Selection, ghost removed: seq<Item>)
    returns (outcome: Option<Outcome>, removable: Option<Item>)
    requires Holds(state, start, removed)
    ensures outcome == TurnOutcome(e, start, removed, originalBytes)
    ensures outcome.Some? ==> Justified(e, start, removed, outcome.value)
    ensures outcome.None? ==> removable.Some? && NextToPrune(e, start, removed) == removable
  {
    removable := None;
    var s := state.Current();
    var report := Report(e.deduplicatedExcerpts, e.excludedHunks, e.deduplicatedHunks, e.sort(state.prunedIds),
                         e.sort(e.reasons), originalBytes, 0);
    var candidate := Render(e, s, report);
    if candidate.Err? {
      ErrorIsJustified(e, start, removed, report);
      return Some(FromError(candidate.error)), None;
    }
    RenderedBytes(e, s, report);
    var bytes := candidate.value.bytes;
    var limits := LimitState(e, s, bytes);
    NoExcessMeansWithin(e, s, bytes);
    if limits.categories == {} && !limits.global {
      ConclusionIsJustified(e, start, removed, originalBytes, true);
      return Some(Conclude(e, s, state.prunedIds, originalBytes, bytes, true)), None;
    }
    removable := Soonest(Candidates(s), limits);
    assert NextToPrune(e, start, removed) == removable;
    if removable.None? {
      StuckWithoutNext(e, start, removed);
      ConclusionIsJustified(e, start, removed, originalBytes, false);
      return Some(Conclude(e, s, state.prunedIds, originalBytes, bytes, false)), None;
    }
    return None, removable;
  }

  /** A build that removes these items, and nothing that it should not, ends with this outcome, which they justify. */
  ghost predicate Reaches(e: Setting, start: Selection, removed: seq<Item>, outcome: Outcome) {
    && Greedy(e, start, removed) && FairlyRemoved(start, removed)
    && Justified(e, start, removed, outcome) && Ends(e, start, removed, outcome)
  }

  method Build(e: Setting, start: Selection) returns (outcome: Outcome)
    requires WellFormed(start)
    ensures exists removed :: Reaches(e, start, removed, outcome)
  {
    ghost var removed: seq<Item> := [];
    var state := new SelectionState(start);
    NothingRemoved(start);
    var provisional := Render(e, start, FirstReport(e));
    if provisional.Err? {
      ErrorIsJustified(e, start, removed, FirstReport(e));
      assert Reaches(e, start, removed, FromError(provisional.error));
      return FromError(provisional.error);
    }
    var maximumIterations := |Candidates(start)| + 1;
    for iteration := 0 to maximumIterations
      invariant Holds(state, start, removed)
      invariant Greedy(e, start, removed) && FairlyRemoved(start, removed)
      invariant GoesOn(e, start, removed, provisional.value.bytes)
      invariant ItemCount(state.Current()) == |Candidates(start)| - iteration
    {
      var found, removable := Turn(e, state, provisional.value.bytes, start, removed);
      if found.Some? {
        assert Reaches(e, start, removed, found.value);
        return found.value;
      }
      AnotherRemoved(e, start, removed, removable.value);
      GoesOnLonger(e, start, removed, removable.value, provisional.value.bytes);
      PruneNext(e, state, removable.value, start, removed);
      removed := removed + [removable.value];
    }
    assert false;
    outcome := FellThrough;
  }

  lemma {:induction false} NothingRemovedFrom(items: seq<Item>)
    ensures Left(items, []) == items
  {
    if items != [] {
      NothingRemovedFrom(items[..|items| - 1]);
    }
  }

  lemma NothingRemoved(start: Selection)
    ensures After(start, []) == start && Ids([]) == []
  {
    NothingRemovedFrom(start.excerpts);
    NothingRemovedFrom(start.diffs);
    NothingRemovedFrom(start.errors);
    NothingRemovedFrom(start.invariants);
  }

  /** When everything together is too much, only critical items are left. */
  lemma GlobalOverflowLeavesCritical(e: Setting, s: Selection, item: Item)
    requires Stuck(e, s) && item in Candidates(s)
    requires ItemCount(s) > e.limits.maxItems || PromptBytes(e, s) > e.limits.maxPromptBytes
    ensures item.critical
  {
    assert !Removable(item, LimitState(e, s, PromptBytes(e, s)));
  }

  /** When a category is too much, only critical items of it are left. */
  lemma CategoryOverflowLeavesCritical(e: Setting, s: Selection, item: Item)
    requires Stuck(e, s) && item in Candidates(s) && OverIn(e, s, item.category)
    ensures item.critical
  {
    assert !Removable(item, LimitState(e, s, PromptBytes(e, s)));
  }

  /** What is pruned is determined: two greedy sequences are the same as far as both go. */
  lemma GreedyIsDetermined(e: Setting, start: Selection, a: seq<Item>, b: seq<Item>, n: nat)
    requires Greedy(e, start, a) && Greedy(e, start, b) && n <= |a| && n <= |b|
    ensures a[..n] == b[..n]
  {
    ChosenIsDetermined(before => NextToPrune(e, start, before), a, b, n);
  }

  /** Of two builds from the same start neither ends sooner than the other, nor otherwise. */
  lemma OutcomeIsDetermined(e: Setting, start: Selection, a: seq<Item>, x: Outcome, b: seq<Item>, y: Outcome)
    requires Greedy(e, start, a) && Ends(e, start, a, x) && Greedy(e, start, b) && Ends(e, start, b, y)
    ensures a == b && x == y
  {
    var n := if |a| < |b| then |a| else |b|;
    GreedyIsDetermined(e, start, a, b, n);
    assert a[..|a|] == a && b[..|b|] == b;
  }
}
