/**
 Limit safety at the level of records: what every reserve, settle and release step keeps.
 */
module BudgetLimits {
  import opened Prelude
  import opened Money
  import opened Pricing
  import opened BudgetEvents
  import opened BudgetReplay
  import opened BudgetPolicy

  // ---- Caps ----

  /** An unset limit admits nothing, because every reservation that would need it is refused. */
  function OrZero(limit: Option<Safe>): nat {
    if limit.Some? then limit.value else 0
  }

  function MoneyOrZero(limit: Option<Money>): nat {
    if limit.Some? then limit.value.amountMicros else 0
  }

  function Min(a: nat, b: nat): nat {
    if a < b then a else b
  }

  function ScopedCap(limits: ScopedLimits, meter: Meter): Option<nat> {
    match meter
    case Input => Some(OrZero(limits.maxInputTokens))
    case Output => Some(OrZero(limits.maxOutputTokens))
    case Calls => Some(OrZero(limits.maxCalls))
    case CostMicros => Some(MoneyOrZero(limits.maxCost))
    case _ => None
  }

  /** The configured ceiling of one meter in one family; `None` where the source sets no limit. */
  function CapOf(cfg: Config, family: Family, provider: Provider, meter: Meter): Option<nat> {
    var limits, own := cfg.limits, cfg.Provider(provider);
    match family
    case PerTask => ScopedCap(limits.perTask, meter)
    case ProviderTask =>
      (match meter
       case Calls => Some(Min(OrZero(limits.providerTask.maxCalls), OrZero(own.maxCallsPerTask)))
       case CostMicros => Some(Min(MoneyOrZero(limits.providerTask.maxCost), MoneyOrZero(own.maxCostPerTask)))
       case _ => ScopedCap(limits.providerTask, meter))
    case ProviderDay => ScopedCap(limits.providerDay, meter)
    case ProviderMonth => ScopedCap(limits.providerMonth, meter)
    case CloudDay => ScopedCap(limits.cloudDay, meter)
    case CloudMonth => ScopedCap(limits.cloudMonth, meter)
    case CloudCallsTask => if meter.Calls? then Some(OrZero(limits.cloudCallsTask)) else None
    case RetryTask => if meter.Retries? then Some(OrZero(limits.retriesPerTask)) else None
    case RetryProviderTask =>
      if meter.Retries? then Some(Min(OrZero(limits.retriesPerProviderTask), OrZero(own.maxRetries))) else None
    case LocalWallTimeTask => if meter.WallTime? then Some(OrZero(limits.localWallTimePerTask)) else None
  }

  /** By how much an overrun settlement exceeds what its reservation set aside. */
  function Overshoot(record: Record, key: Key, meter: Meter): nat {
    if record.Overran() && Counts(record, key)
    then
      var actual, reserved := Read(record.Held(), meter), Read(ReservedUsage(record.reservation), meter);
      if actual > reserved then actual - reserved else 0
    else 0
  }

  function Excess(records: seq<Record>, key: Key, meter: Meter): nat {
    SumBy(records, record => Overshoot(record, key, meter))
  }

  ghost predicate WithinAt(cfg: Config, records: seq<Record>, r: Reservation, family: Family, meter: Meter) {
    CapOf(cfg, family, r.provider, meter).Some? ==>
      Sum(records, KeyIn(r, family), meter)
      <= CapOf(cfg, family, r.provider, meter).value + Excess(records, KeyIn(r, family), meter)
  }

  /** Every limited total of every scope is at most its limit plus the overruns in that scope. */
  ghost predicate WithinLimits(cfg: Config, records: seq<Record>) {
    forall r: Reservation, family, meter | !Delimited(r) :: WithinAt(cfg, records, r, family, meter)
  }

  /** Every reservation, released or not, was made with delimiter-free scope parts. */
  predicate CleanScopes(records: seq<Record>) {
    forall i | 0 <= i < |records| :: !Delimited(records[i].reservation)
  }

  lemma NoOverrunNoExcess(records: seq<Record>, key: Key, meter: Meter)
    requires !Circuit(records)
    ensures Excess(records, key, meter) == 0
  {
    forall i | 0 <= i < |records|
      ensures !records[i].Overran()
    {
    }
    SumMonotone(records, record => Overshoot(record, key, meter), record => 0);
    ZeroSum(records);
  }

  lemma {:induction false} ZeroSum(records: seq<Record>)
    ensures SumBy(records, (record: Record) => 0) == 0
  {
    if records != [] {
      ZeroSum(records[..|records| - 1]);
    }
  }

  // ---- What the limit checks establish ----

  lemma PassedParts(cfg: Config, r: Reservation, at: Reading)
    requires FirstFailing(LimitChecks(cfg, r, at)).None?
    ensures forall c | c in ProviderChecks(cfg.Provider(r.provider), r, at) :: c.Failing().None?
    ensures forall c | c in ScopedChecks(at, PerTask, r.cost.currency, cfg.limits.perTask) :: c.Failing().None?
    ensures forall c | c in ScopedChecks(at, ProviderTask, r.cost.currency, cfg.limits.providerTask) ::
            c.Failing().None?
    ensures forall c | c in ScopedChecks(at, ProviderDay, r.cost.currency, cfg.limits.providerDay) :: c.Failing().None?
    ensures forall c | c in ScopedChecks(at, ProviderMonth, r.cost.currency, cfg.limits.providerMonth) ::
            c.Failing().None?
    ensures forall c | c in CloudChecks(cfg.limits, r, at) :: c.Failing().None?
    ensures forall c | c in RetryChecks(cfg.limits, cfg.Provider(r.provider), r, at) :: c.Failing().None?
    ensures forall c | c in WallTimeChecks(cfg.limits, r, at) :: c.Failing().None?
  {
    var all := LimitChecks(cfg, r, at);
    forall c | c in all
      ensures c.Failing().None?
    {
    }
  }

  lemma ScopedPassed(at: Reading, family: Family, currency: string, limits: ScopedLimits, meter: Meter)
    requires forall c | c in ScopedChecks(at, family, currency, limits) :: c.Failing().None?
    requires ScopedCap(limits, meter).Some?
    ensures at(family, meter) <= ScopedCap(limits, meter).value
  {
    var checks := ScopedChecks(at, family, currency, limits);
    assert checks[0] in checks && checks[1] in checks && checks[2] in checks && checks[3] in checks;
  }

  /** Whether the source compares this family's total for this reservation at all. */
  predicate Compared(r: Reservation, family: Family) {
    && (CloudOnly(family) ==> r.cloud)
    && (family.RetryTask? || family.RetryProviderTask? ==> r.retry)
    && (family.LocalWallTimeTask? ==> !r.cloud)
  }

  lemma CapHolds(cfg: Config, r: Reservation, at: Reading, family: Family, meter: Meter)
    requires FirstFailing(LimitChecks(cfg, r, at)).None?
    requires Compared(r, family) && CapOf(cfg, family, r.provider, meter).Some?
    ensures at(family, meter) <= CapOf(cfg, family, r.provider, meter).value
  {
    PassedParts(cfg, r, at);
    var currency, limits := r.cost.currency, cfg.limits;
    match family
    case PerTask => ScopedPassed(at, PerTask, currency, limits.perTask, meter);
    case ProviderTask =>
      ScopedPassed(at, ProviderTask, currency, limits.providerTask, meter);
      var checks := ProviderChecks(cfg.Provider(r.provider), r, at);
      assert checks[2] in checks && checks[3] in checks;
    case ProviderDay => ScopedPassed(at, ProviderDay, currency, limits.providerDay, meter);
    case ProviderMonth => ScopedPassed(at, ProviderMonth, currency, limits.providerMonth, meter);
    case CloudDay => CloudPassed(limits, r, at, family, meter);
    case CloudMonth => CloudPassed(limits, r, at, family, meter);
    case CloudCallsTask => CloudPassed(limits, r, at, family, meter);
    case RetryTask =>
      var checks := RetryChecks(limits, cfg.Provider(r.provider), r, at);
      assert checks[0] in checks;
    case RetryProviderTask =>
      var checks := RetryChecks(limits, cfg.Provider(r.provider), r, at);
      assert checks[1] in checks && checks[2] in checks;
    case LocalWallTimeTask =>
      var checks := WallTimeChecks(limits, r, at);
      assert checks[0] in checks;
  }

  lemma CloudPassed(limits: Limits, r: Reservation, at: Reading, family: Family, meter: Meter)
    requires r.cloud && forall c | c in CloudChecks(limits, r, at) :: c.Failing().None?
    ensures family.CloudDay? && ScopedCap(limits.cloudDay, meter).Some? ==>
              at(CloudDay, meter) <= ScopedCap(limits.cloudDay, meter).value
    ensures family.CloudMonth? && ScopedCap(limits.cloudMonth, meter).Some? ==>
              at(CloudMonth, meter) <= ScopedCap(limits.cloudMonth, meter).value
    ensures at(CloudCallsTask, Calls) <= OrZero(limits.cloudCallsTask)
  {
    var day := ScopedChecks(at, CloudDay, r.cost.currency, limits.cloudDay);
    var month := ScopedChecks(at, CloudMonth, r.cost.currency, limits.cloudMonth);
    var calls := NumberCheck(at(CloudCallsTask, Calls), limits.cloudCallsTask);
    assert CloudChecks(limits, r, at) == day + month + [calls];
    assert forall c | c in day :: c in CloudChecks(limits, r, at);
    assert forall c | c in month :: c in CloudChecks(limits, r, at);
    assert calls in CloudChecks(limits, r, at);
    if family.CloudDay? && ScopedCap(limits.cloudDay, meter).Some? {
      ScopedPassed(at, CloudDay, r.cost.currency, limits.cloudDay, meter);
    }
    if family.CloudMonth? && ScopedCap(limits.cloudMonth, meter).Some? {
      ScopedPassed(at, CloudMonth, r.cost.currency, limits.cloudMonth, meter);
    }
  }

  // ---- What each step keeps ----

  lemma ExcessSnoc(records: seq<Record>, record: Record, key: Key, meter: Meter)
    ensures Excess(records + [record], key, meter) == Excess(records, key, meter) + Overshoot(record, key, meter)
  {
    assert (records + [record])[..|records|] == records;
  }

  lemma CapBelongsToScope(cfg: Config, a: Reservation, b: Reservation, family: Family, meter: Meter)
    requires SameScope(a, b, family)
    ensures CapOf(cfg, family, a.provider, meter) == CapOf(cfg, family, b.provider, meter)
  {
  }

  lemma ComparedSum(cfg: Config, records: seq<Record>, r: Reservation, family: Family, meter: Meter)
    requires FirstFailing(LimitChecks(cfg, r, CandidateSum(records, r))).None?
    requires Compared(r, family) && CapOf(cfg, family, r.provider, meter).Some?
    ensures Sum(records + [Record(r, None)], KeyIn(r, family), meter) <= CapOf(cfg, family, r.provider, meter).value
  {
    var at := CandidateSum(records, r);
    CapHolds(cfg, r, at, family, meter);
    assert at(family, meter) == Sum(records + [Record(r, None)], KeyIn(r, family), meter);
  }

  /** Where the source makes no comparison, the new reservation adds nothing. */
  lemma UncomparedShare(cfg: Config, r: Reservation, family: Family, meter: Meter)
    requires ValidReservation(r) && (CloudOnly(family) ==> r.cloud) && !Compared(r, family)
    requires CapOf(cfg, family, r.provider, meter).Some?
    ensures Read(ReservedUsage(r), meter) == 0
  {
  }

  lemma ReserveKeepsAt(
      cfg: Config, records: seq<Record>, r: Reservation, other: Reservation, family: Family, meter: Meter)
    requires WithinAt(cfg, records, other, family, meter)
    requires ValidReservation(r) && !Delimited(r) && !Delimited(other)
    requires FirstFailing(LimitChecks(cfg, r, CandidateSum(records, r))).None?
    ensures WithinAt(cfg, records + [Record(r, None)], other, family, meter)
  {
    var record, key := Record(r, None), KeyIn(other, family);
    SumSnoc(records, record, key, meter);
    ExcessSnoc(records, record, key, meter);
    if CapOf(cfg, family, other.provider, meter).Some? && InScope(r, key) {
      KeysSeparateScopes(r, other, family);
      CapBelongsToScope(cfg, r, other, family, meter);
      if Compared(r, family) {
        ComparedSum(cfg, records, r, family, meter);
      } else {
        UncomparedShare(cfg, r, family, meter);
      }
    }
  }

  /** A reservation that passes its checks keeps every total within its limit. */
  lemma ReserveKeepsLimits(cfg: Config, records: seq<Record>, r: Reservation)
    requires WithinLimits(cfg, records) && ValidReservation(r) && !Delimited(r)
    requires FirstFailing(LimitChecks(cfg, r, CandidateSum(records, r))).None?
    ensures WithinLimits(cfg, records + [Record(r, None)])
  {
    forall other: Reservation, family, meter | !Delimited(other)
      ensures WithinAt(cfg, records + [Record(r, None)], other, family, meter)
    {
      ReserveKeepsAt(cfg, records, r, other, family, meter);
    }
  }

  /** Closing a reservation moves each of its totals by what is held now minus what was reserved. */
  lemma CloseMoves(records: seq<Record>, s: Settlement, key: Key, meter: Meter)
    requires Replay(records, BudgetSettlement(s)).Some?
    ensures var records', i := Replay(records, BudgetSettlement(s)).value, Find(records, s.reservationId);
            var r := records[i].reservation;
            Sum(records', key, meter)
            == Sum(records, key, meter)
               - (if InScope(r, key) then Read(ReservedUsage(r), meter) else 0)
               + (if InScope(r, key) && s.disposition.Settled? then Read(ActualUsage(r, s), meter) else 0)
  {
    var i := Find(records, s.reservationId);
    var closed := Record(records[i].reservation, Some(s));
    SumUpdate(records, i, closed, record => Share(record, key, meter));
  }

  lemma {:induction false} FindAppended(records: seq<Record>, record: Record)
    requires !Knows(records, record.reservation.reservationId)
    ensures Find(records + [record], record.reservation.reservationId) == |records|
  {
    if records != [] {
      assert (records + [record])[1..] == records[1..] + [record];
      FindAppended(records[1..], record);
    }
  }

  /** So a release takes back exactly what its reservation had set aside, in every total. */
  lemma ReleaseUndoesReserve(records: seq<Record>, r: Reservation, s: Settlement, key: Key, meter: Meter)
    requires Replay(records, BudgetReservation(r)).Some?
    requires s.reservationId == r.reservationId && s.disposition.Released?
    requires Replay(records + [Record(r, None)], BudgetSettlement(s)).Some?
    ensures Sum(Replay(records + [Record(r, None)], BudgetSettlement(s)).value, key, meter) == Sum(records, key, meter)
  {
    FindAppended(records, Record(r, None));
    CloseMoves(records + [Record(r, None)], s, key, meter);
    SumSnoc(records, Record(r, None), key, meter);
  }

  /** Without an overrun no limited meter of a settlement exceeds its reservation. */
  lemma SettledWithinReservation(cfg: Config, r: Reservation, s: Settlement, family: Family, meter: Meter)
    requires ValidSettlement(r, s) && s.disposition.Settled? && !s.overrun
    requires CapOf(cfg, family, r.provider, meter).Some?
    ensures Read(ActualUsage(r, s), meter) <= Read(ReservedUsage(r), meter)
  {
  }

  lemma CloseExcess(records: seq<Record>, s: Settlement, key: Key, meter: Meter)
    requires Replay(records, BudgetSettlement(s)).Some?
    ensures var r := records[Find(records, s.reservationId)].reservation;
            Excess(Replay(records, BudgetSettlement(s)).value, key, meter)
            == Excess(records, key, meter) + Overshoot(Record(r, Some(s)), key, meter)
  {
    var i := Find(records, s.reservationId);
    SumUpdate(records, i, Record(records[i].reservation, Some(s)), record => Overshoot(record, key, meter));
  }

  lemma CloseKeepsAt(cfg: Config, records: seq<Record>, s: Settlement, other: Reservation, family: Family, meter: Meter)
    requires WithinAt(cfg, records, other, family, meter)
    requires Replay(records, BudgetSettlement(s)).Some?
    requires !Delimited(other) && !Delimited(records[Find(records, s.reservationId)].reservation)
    ensures WithinAt(cfg, Replay(records, BudgetSettlement(s)).value, other, family, meter)
  {
    var r, key := records[Find(records, s.reservationId)].reservation, KeyIn(other, family);
    CloseMoves(records, s, key, meter);
    CloseExcess(records, s, key, meter);
    if CapOf(cfg, family, other.provider, meter).Some? && InScope(r, key) {
      KeysSeparateScopes(r, other, family);
      CapBelongsToScope(cfg, r, other, family, meter);
      if s.disposition.Settled? && !s.overrun {
        SettledWithinReservation(cfg, r, s, family, meter);
      }
    }
  }

  lemma CloseKeepsLimits(cfg: Config, records: seq<Record>, s: Settlement)
    requires WithinLimits(cfg, records) && CleanScopes(records) && Replay(records, BudgetSettlement(s)).Some?
    ensures WithinLimits(cfg, Replay(records, BudgetSettlement(s)).value)
  {
    forall other: Reservation, family, meter | !Delimited(other)
      ensures WithinAt(cfg, Replay(records, BudgetSettlement(s)).value, other, family, meter)
    {
      CloseKeepsAt(cfg, records, s, other, family, meter);
    }
  }
}
