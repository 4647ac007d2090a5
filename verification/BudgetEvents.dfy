/** Ledger events, budget scopes, and the usage a reservation holds in each scope. */
module BudgetEvents {
  import opened Prelude
  import opened Money
  import opened Pricing

  datatype Route = Deterministic | Local | CheapCloud | Strong

  datatype DataClass = Public | Internal | Sensitive

  datatype Disposition = Settled | Released

  datatype Reservation = Reservation(
    eventId: string, occurredAt: string, reservationId: string, taskId: string, attemptId: string,
    provider: Provider, model: string, route: Route, dataClass: DataClass,
    automatic: bool, cloud: bool, retry: bool,
    inputTokens: Safe, outputTokens: Safe, cost: Money, wallMs: Safe,
    pricingVersion: string, rates: Rates, configHash: string)

  datatype Settlement = Settlement(
    eventId: string, occurredAt: string, settlementId: string, reservationId: string,
    taskId: string, attemptId: string, provider: Provider, disposition: Disposition,
    inputTokens: Safe, outputTokens: Safe, cacheReadTokens: Safe, cacheWriteTokens: Safe,
    cost: Money, wallMs: Safe, overrun: bool, reasonCode: string)

  /** The budget controller writes the first two kinds; other components write the rest. */
  datatype Event =
    | BudgetReservation(reservation: Reservation)
    | BudgetSettlement(settlement: Settlement)
    | ApprovalEvent(approvalEventId: string, approvalId: string, approval: string)
    | OtherEvent(otherEventId: string, body: string)
  {
    function Id(): string {
      match this
      case BudgetReservation(r) => r.eventId
      case BudgetSettlement(s) => s.eventId
      case ApprovalEvent(id, _, _) => id
      case OtherEvent(id, _) => id
    }

    predicate IsBudget() {
      BudgetReservation? || BudgetSettlement?
    }
  }

  // ---- Scopes ----

  datatype Family =
    | PerTask | ProviderTask | ProviderDay | ProviderMonth | CloudDay | CloudMonth
    | CloudCallsTask | RetryTask | RetryProviderTask | LocalWallTimeTask
  {
    /** The first six families hold full usages, the last four hold one counter each. */
    predicate HoldsUsage() {
      !CloudCallsTask? && !RetryTask? && !RetryProviderTask? && !LocalWallTimeTask?
    }
  }

  /** An entry of one of the ten totals: which map, and the string key inside it. */
  datatype Key = Key(family: Family, scope: string)

  function ProviderName(provider: Provider): string {
    match provider
    case LocalAi => "local-ai"
    case DeepSeek => "deepseek"
    case Qwen => "qwen"
    case Codex => "codex"
    case Claude => "claude"
  }

  function Prefix(s: string, n: nat): string {
    if |s| <= n then s else s[..n]
  }

  function DayOf(r: Reservation): string { Prefix(r.occurredAt, 10) }

  function MonthOf(r: Reservation): string { Prefix(r.occurredAt, 7) }

  function JoinPair(left: string, right: string): string { left + "|" + right }

  /** The checked join of the source: a part that contains the delimiter is refused. */
  function ScopeKey(left: string, right: string): Option<string> {
    if '|' in left || '|' in right then None else Some(JoinPair(left, right))
  }

  predicate Delimited(r: Reservation) {
    '|' in r.taskId || '|' in DayOf(r) || '|' in MonthOf(r)
  }

  function KeyIn(r: Reservation, family: Family): Key {
    Key(family, match family
      case PerTask | CloudCallsTask | RetryTask | LocalWallTimeTask => r.taskId
      case ProviderTask | RetryProviderTask => JoinPair(r.taskId, ProviderName(r.provider))
      case ProviderDay => JoinPair(ProviderName(r.provider), DayOf(r))
      case ProviderMonth => JoinPair(ProviderName(r.provider), MonthOf(r))
      case CloudDay => DayOf(r)
      case CloudMonth => MonthOf(r))
  }

  predicate CloudOnly(family: Family) {
    family.CloudDay? || family.CloudMonth? || family.CloudCallsTask?
  }

  predicate InScope(r: Reservation, key: Key) {
    KeyIn(r, key.family) == key && (CloudOnly(key.family) ==> r.cloud)
  }

  /** What it means for two reservations to share a scope, without reference to string keys. */
  predicate SameScope(a: Reservation, b: Reservation, family: Family) {
    match family
    case PerTask | CloudCallsTask | RetryTask | LocalWallTimeTask => a.taskId == b.taskId
    case ProviderTask | RetryProviderTask => a.taskId == b.taskId && a.provider == b.provider
    case ProviderDay => a.provider == b.provider && DayOf(a) == DayOf(b)
    case ProviderMonth => a.provider == b.provider && MonthOf(a) == MonthOf(b)
    case CloudDay => DayOf(a) == DayOf(b)
    case CloudMonth => MonthOf(a) == MonthOf(b)
  }

  lemma JoinPairInjective(a: string, b: string, c: string, d: string)
    requires '|' !in a && '|' !in c
    requires JoinPair(a, b) == JoinPair(c, d)
    ensures a == c && b == d
  {
    var s := JoinPair(a, b);
    assert s[|a|] == '|' && s[|c|] == '|';
    assert |a| == |c|;
    assert a == s[..|a|] == s[..|c|] == c;
    assert b == s[|a| + 1..] == s[|c| + 1..] == d;
  }

  lemma ProviderNameInjective(a: Provider, b: Provider)
    ensures ProviderName(a) == ProviderName(b) <==> a == b
    ensures '|' !in ProviderName(a)
  {
    assert ProviderName(a)[0] == 'l' || ProviderName(a)[0] == 'd' || ProviderName(a)[0] == 'q'
           || ProviderName(a)[0] == 'c';
    assert a.Codex? ==> ProviderName(a)[1] == 'o';
    assert a.Claude? ==> ProviderName(a)[1] == 'l';
    assert b.Codex? ==> ProviderName(b)[1] == 'o';
    assert b.Claude? ==> ProviderName(b)[1] == 'l';
  }

  /** The joined keys of a reservation: one of them is refused exactly when a part holds the delimiter. */
  lemma ScopeKeysOf(r: Reservation)
    ensures var task := ScopeKey(r.taskId, ProviderName(r.provider));
            var day := ScopeKey(ProviderName(r.provider), DayOf(r));
            var month := ScopeKey(ProviderName(r.provider), MonthOf(r));
            && (task.None? || day.None? || month.None? <==> Delimited(r))
            && (task.Some? ==> task.value == KeyIn(r, ProviderTask).scope)
            && (day.Some? ==> day.value == KeyIn(r, ProviderDay).scope)
            && (month.Some? ==> month.value == KeyIn(r, ProviderMonth).scope)
  {
    ProviderNameInjective(r.provider, r.provider);
  }

  /** Refusing the delimiter is what keeps distinct scopes from sharing a total. */
  lemma KeysSeparateScopes(a: Reservation, b: Reservation, family: Family)
    requires !Delimited(a) && !Delimited(b)
    ensures KeyIn(a, family) == KeyIn(b, family) <==> SameScope(a, b, family)
  {
    ProviderNameInjective(a.provider, b.provider);
    ProviderNameInjective(b.provider, a.provider);
    if KeyIn(a, family) == KeyIn(b, family) {
      match family
      case ProviderTask | RetryProviderTask =>
        JoinPairInjective(a.taskId, ProviderName(a.provider), b.taskId, ProviderName(b.provider));
      case ProviderDay =>
        JoinPairInjective(ProviderName(a.provider), DayOf(a), ProviderName(b.provider), DayOf(b));
      case ProviderMonth =>
        JoinPairInjective(ProviderName(a.provider), MonthOf(a), ProviderName(b.provider), MonthOf(b));
      case _ =>
    }
  }

  /** Without that refusal two different tasks and providers could share a key. */
  lemma DelimiterWouldMergeScopes()
    ensures JoinPair("a|b", "c") == JoinPair("a", "b|c")
  {
  }

  // ---- Usage ----

  datatype Usage = Usage(
    inputTokens: Safe, outputTokens: Safe, cacheReadTokens: Safe, cacheWriteTokens: Safe,
    calls: Safe, retries: Safe, localWallTimeMs: Safe, cost: Money)

  datatype Meter = Input | Output | CacheRead | CacheWrite | Calls | Retries | WallTime | CostMicros

  function Read(u: Usage, meter: Meter): nat {
    match meter
    case Input => u.inputTokens
    case Output => u.outputTokens
    case CacheRead => u.cacheReadTokens
    case CacheWrite => u.cacheWriteTokens
    case Calls => u.calls
    case Retries => u.retries
    case WallTime => u.localWallTimeMs
    case CostMicros => u.cost.amountMicros
  }

  /** The meters an entry of a family keeps. */
  predicate Keeps(family: Family, meter: Meter) {
    match family
    case CloudCallsTask => meter.Calls?
    case RetryTask | RetryProviderTask => meter.Retries?
    case LocalWallTimeTask => meter.WallTime?
    case _ => true
  }

  function ReservedUsage(r: Reservation): Usage {
    Usage(r.inputTokens, r.outputTokens, 0, 0, 1, if r.retry then 1 else 0, r.wallMs, r.cost)
  }

  function ActualUsage(r: Reservation, s: Settlement): Usage {
    Usage(s.inputTokens, s.outputTokens, s.cacheReadTokens, s.cacheWriteTokens,
          1, if r.retry then 1 else 0, s.wallMs, s.cost)
  }

  // ---- Records ----

  datatype Record = Record(reservation: Reservation, settlement: Option<Settlement>)
  {
    predicate IsActive() { settlement.None? }

    predicate IsReleased() { settlement.Some? && settlement.value.disposition.Released? }

    predicate Overran() { settlement.Some? && settlement.value.overrun }

    /** The usage the record holds; a released record holds none. */
    function Held(): Usage {
      if settlement.None? then ReservedUsage(reservation) else ActualUsage(reservation, settlement.value)
    }
  }

  predicate ValidReservation(r: Reservation) {
    && r.cloud == (r.provider != LocalAi)
    && (r.cloud ==> r.wallMs == 0)
    && CurrencyCode(r.cost.currency)
    && MicrosForTokens(r.inputTokens, r.rates.input).Some?
    && MicrosForTokens(r.outputTokens, r.rates.output).Some?
    && r.cost.amountMicros == MicrosForTokens(r.inputTokens, r.rates.input).value
                            + MicrosForTokens(r.outputTokens, r.rates.output).value
  }

  predicate Exceeds(r: Reservation, s: Settlement) {
    || s.inputTokens > r.inputTokens
    || s.outputTokens > r.outputTokens
    || s.cost.amountMicros > r.cost.amountMicros
    || s.wallMs > r.wallMs
  }

  predicate ValidSettlement(r: Reservation, s: Settlement) {
    && s.taskId == r.taskId && s.attemptId == r.attemptId && s.provider == r.provider
    && s.cost.currency == r.cost.currency
    && match s.disposition
       case Released =>
         && s.inputTokens == s.outputTokens == s.cacheReadTokens == s.cacheWriteTokens == 0
         && s.cost.amountMicros == 0 && s.wallMs == 0 && !s.overrun
       case Settled => s.overrun == Exceeds(r, s)
  }
}
