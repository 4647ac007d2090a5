/**
 Budget state derived from the event log: records in reservation order, and ten totals
 that are sums over the records that still hold usage.
 */
module BudgetReplay {
  import opened Prelude
  import opened Money
  import opened Pricing
  import opened BudgetEvents

  // ---- Records of a log ----

  /** The position of a reservation id among the records, or their number when it is absent. */
  function Find(records: seq<Record>, id: string): (i: nat)
    ensures i <= |records|
    ensures i < |records| ==> records[i].reservation.reservationId == id
    ensures forall j | 0 <= j < i :: records[j].reservation.reservationId != id
  {
    if records == [] then 0
    else if records[0].reservation.reservationId == id then 0
    else 1 + Find(records[1..], id)
  }

  predicate Knows(records: seq<Record>, id: string) {
    Find(records, id) < |records|
  }

  /** One event of the replay loop; `None` is the loop's exception. */
  function Replay(records: seq<Record>, event: Event): Option<seq<Record>> {
    match event
    case BudgetReservation(r) =>
      if Knows(records, r.reservationId) || !ValidReservation(r) then None
      else Some(records + [Record(r, None)])
    case BudgetSettlement(s) =>
      var i := Find(records, s.reservationId);
      if i == |records| || records[i].settlement.Some? || !ValidSettlement(records[i].reservation, s) then None
      else Some(records[i := Record(records[i].reservation, Some(s))])
    case _ => Some(records)
  }

  function Records(events: seq<Event>): Option<seq<Record>> {
    if events == [] then Some([])
    else
      match Records(events[..|events| - 1])
      case None => None
      case Some(records) => Replay(records, events[|events| - 1])
  }

  lemma RecordsAppend(events: seq<Event>, event: Event)
    ensures Records(events + [event]) ==
            match Records(events) case None => None case Some(records) => Replay(records, event)
  {
    assert (events + [event])[..|events|] == events;
  }

  predicate DistinctIds(records: seq<Record>) {
    forall i, j | 0 <= i < j < |records| ::
      records[i].reservation.reservationId != records[j].reservation.reservationId
  }

  predicate WellFormed(records: seq<Record>) {
    && DistinctIds(records)
    && (forall i | 0 <= i < |records| :: ValidReservation(records[i].reservation))
    && (forall i | 0 <= i < |records| :: records[i].settlement.Some? ==>
          ValidSettlement(records[i].reservation, records[i].settlement.value))
  }

  lemma {:induction false} RecordsWellFormed(events: seq<Event>)
    requires Records(events).Some?
    ensures WellFormed(Records(events).value)
  {
    if events != [] {
      RecordsWellFormed(events[..|events| - 1]);
    }
  }

  // ---- Sums over records ----

  function SumBy(records: seq<Record>, f: Record -> nat): nat {
    if records == [] then 0 else SumBy(records[..|records| - 1], f) + f(records[|records| - 1])
  }

  lemma {:induction false} SumAppend(left: seq<Record>, right: seq<Record>, f: Record -> nat)
    ensures SumBy(left + right, f) == SumBy(left, f) + SumBy(right, f)
  {
    if right == [] {
      assert left + right == left;
    } else {
      var whole, front := left + right, right[..|right| - 1];
      assert whole[..|whole| - 1] == left + front;
      SumAppend(left, front, f);
    }
  }

  lemma SumOne(record: Record, f: Record -> nat)
    ensures SumBy([record], f) == f(record)
  {
    assert [record][..0] == [];
  }

  lemma SumUpdate(records: seq<Record>, i: nat, record: Record, f: Record -> nat)
    requires i < |records|
    ensures SumBy(records[i := record], f) + f(records[i]) == SumBy(records, f) + f(record)
  {
    var before, after := records[..i], records[i + 1..];
    assert records == before + ([records[i]] + after);
    assert records[i := record] == before + ([record] + after);
    SumAppend(before, [records[i]] + after, f);
    SumAppend([records[i]], after, f);
    SumAppend(before, [record] + after, f);
    SumAppend([record], after, f);
    SumOne(record, f);
    SumOne(records[i], f);
  }

  lemma {:induction false} SumMonotone(records: seq<Record>, f: Record -> nat, g: Record -> nat)
    requires forall r | r in records :: f(r) <= g(r)
    ensures SumBy(records, f) <= SumBy(records, g)
  {
    if records != [] {
      SumMonotone(records[..|records| - 1], f, g);
    }
  }

  lemma SumPrefix(records: seq<Record>, n: nat, f: Record -> nat)
    requires n <= |records|
    ensures SumBy(records[..n], f) <= SumBy(records, f)
  {
    assert records == records[..n] + records[n..];
    SumAppend(records[..n], records[n..], f);
  }

  lemma {:induction false} SumPermuted(a: seq<Record>, b: seq<Record>, f: Record -> nat)
    requires multiset(a) == multiset(b)
    ensures SumBy(a, f) == SumBy(b, f)
  {
    if a == [] {
      assert |multiset(b)| == |b|;
    } else {
      var last := a[|a| - 1];
      assert last in multiset(b);
      var i :| 0 <= i < |b| && b[i] == last;
      var rest := b[..i] + b[i + 1..];
      assert a == a[..|a| - 1] + [last];
      assert b == b[..i] + ([last] + b[i + 1..]);
      assert multiset(b) == multiset(b[..i]) + multiset([last]) + multiset(b[i + 1..]);
      assert multiset(a[..|a| - 1]) == multiset(a) - multiset{last} == multiset(rest);
      SumPermuted(a[..|a| - 1], rest, f);
      SumAppend(b[..i], [last] + b[i + 1..], f);
      SumAppend([last], b[i + 1..], f);
      SumAppend(b[..i], b[i + 1..], f);
      SumOne(last, f);
    }
  }

  // ---- Totals ----

  /** A record counts at a key when it holds usage there. */
  predicate Counts(record: Record, key: Key) {
    !record.IsReleased() && InScope(record.reservation, key)
  }

  function Share(record: Record, key: Key, meter: Meter): nat {
    if Counts(record, key) then Read(record.Held(), meter) else 0
  }

  /** What the records hold at a key: actual usage when settled, reserved usage while active. */
  function Sum(records: seq<Record>, key: Key, meter: Meter): nat {
    SumBy(records, record => Share(record, key, meter))
  }

  predicate Populated(records: seq<Record>, key: Key) {
    exists i | 0 <= i < |records| :: Counts(records[i], key)
  }

  ghost predicate SafeSums(records: seq<Record>) {
    forall key: Key, meter | Keeps(key.family, meter) :: Sum(records, key, meter) <= MAX_SAFE
  }

  predicate Undelimited(records: seq<Record>) {
    forall i | 0 <= i < |records| :: !records[i].IsReleased() ==> !Delimited(records[i].reservation)
  }

  ghost predicate OneCurrencyPerScope(records: seq<Record>) {
    forall i, j, key: Key | 0 <= i < |records| && 0 <= j < |records|
      && key.family.HoldsUsage() && Counts(records[i], key) && Counts(records[j], key) ::
      records[i].Held().cost.currency == records[j].Held().cost.currency
  }

  /** Exactly when the totals can be formed; nothing here depends on the records' order. */
  ghost predicate Aggregable(records: seq<Record>) {
    Undelimited(records) && OneCurrencyPerScope(records) && SafeSums(records)
  }

  function CounterMeter(family: Family): Meter {
    match family
    case CloudCallsTask => Calls
    case RetryTask | RetryProviderTask => Retries
    case _ => WallTime
  }

  /** The ten maps of the source: six of usages and four of counters. */
  datatype Totals = Totals(usage: map<Key, Usage>, counters: map<Key, Safe>)

  /** At one key the totals hold the sum of the records, or no entry when there is nothing to hold. */
  ghost predicate MatchesAt(t: Totals, records: seq<Record>, key: Key) {
    && (key in t.usage <==> key.family.HoldsUsage() && Populated(records, key))
    && (key in t.usage ==> forall meter :: Read(t.usage[key], meter) == Sum(records, key, meter))
    && (key in t.usage ==> forall i | 0 <= i < |records| && Counts(records[i], key) ::
          t.usage[key].cost.currency == records[i].Held().cost.currency)
    && (key in t.counters <==> !key.family.HoldsUsage() && Sum(records, key, CounterMeter(key.family)) > 0)
    && (key in t.counters ==> t.counters[key] == Sum(records, key, CounterMeter(key.family)))
  }

  ghost predicate Matches(t: Totals, records: seq<Record>) {
    forall key :: MatchesAt(t, records, key)
  }

  /** Aggregation looks only at which records there are, never at their order. */
  lemma OrderIndependent(a: seq<Record>, b: seq<Record>)
    requires multiset(a) == multiset(b)
    ensures Aggregable(a) <==> Aggregable(b)
    ensures forall t :: Matches(t, a) <==> Matches(t, b)
  {
    forall key, meter
      ensures Sum(a, key, meter) == Sum(b, key, meter)
    {
      SumPermuted(a, b, record => Share(record, key, meter));
    }
    forall i | 0 <= i < |a|
      ensures a[i] in b
    {
      assert a[i] in multiset(b);
    }
    forall i | 0 <= i < |b|
      ensures b[i] in a
    {
      assert b[i] in multiset(a);
    }
    forall t, key
      ensures MatchesAt(t, a, key) <==> MatchesAt(t, b, key)
    {
    }
  }

  lemma SameReadings(u: Usage, v: Usage)
    requires forall meter :: Read(u, meter) == Read(v, meter)
    requires u.cost.currency == v.cost.currency
    ensures u == v
  {
    assert Read(u, Input) == Read(v, Input) && Read(u, Output) == Read(v, Output);
    assert Read(u, CacheRead) == Read(v, CacheRead) && Read(u, CacheWrite) == Read(v, CacheWrite);
    assert Read(u, Calls) == Read(v, Calls) && Read(u, Retries) == Read(v, Retries);
    assert Read(u, WallTime) == Read(v, WallTime) && Read(u, CostMicros) == Read(v, CostMicros);
  }

  /** The totals are a function of the records: nothing else about the history shows in them. */
  lemma TotalsUnique(t: Totals, t': Totals, records: seq<Record>)
    requires Matches(t, records) && Matches(t', records)
    ensures t == t'
  {
    forall key
      ensures (key in t.usage <==> key in t'.usage) && (key in t.counters <==> key in t'.counters)
      ensures key in t.usage ==> t.usage[key] == t'.usage[key]
      ensures key in t.counters ==> t.counters[key] == t'.counters[key]
    {
      assert MatchesAt(t, records, key) && MatchesAt(t', records, key);
      if key in t.usage {
        var i :| 0 <= i < |records| && Counts(records[i], key);
        SameReadings(t.usage[key], t'.usage[key]);
      }
    }
    assert t.usage.Keys == t'.usage.Keys && t.counters.Keys == t'.counters.Keys;
  }

  // ---- The mutable totals of the replay ----

  function PlusSafe(left: Usage, right: Usage): Option<Usage> {
    var cost := AddMoney(left.cost, right.cost);
    if cost.None?
       || !IsSafe(left.inputTokens + right.inputTokens) || !IsSafe(left.outputTokens + right.outputTokens)
       || !IsSafe(left.cacheReadTokens + right.cacheReadTokens)
       || !IsSafe(left.cacheWriteTokens + right.cacheWriteTokens)
       || !IsSafe(left.calls + right.calls) || !IsSafe(left.retries + right.retries)
       || !IsSafe(left.localWallTimeMs + right.localWallTimeMs) then None
    else Some(Usage(left.inputTokens + right.inputTokens, left.outputTokens + right.outputTokens,
                    left.cacheReadTokens + right.cacheReadTokens, left.cacheWriteTokens + right.cacheWriteTokens,
                    left.calls + right.calls, left.retries + right.retries,
                    left.localWallTimeMs + right.localWallTimeMs, cost.value))
  }

  function Entry(counters: map<Key, Safe>, key: Key): Safe {
    if key in counters then counters[key] else 0
  }

  predicate Fits(t: Totals, key: Key, u: Usage) {
    if key.family.HoldsUsage() then key in t.usage ==> PlusSafe(t.usage[key], u).Some?
    else Entry(t.counters, key) + Read(u, CounterMeter(key.family)) <= MAX_SAFE
  }

  /** One addition: a first usage is stored as it is, and a zero count leaves no entry. */
  function AddAt(t: Totals, key: Key, u: Usage): Totals
    requires Fits(t, key, u)
  {
    if key.family.HoldsUsage() then
      t.(usage := t.usage[key := if key in t.usage then PlusSafe(t.usage[key], u).value else u])
    else
      var value := Read(u, CounterMeter(key.family));
      if value == 0 then t else t.(counters := t.counters[key := Entry(t.counters, key) + value])
  }

  function AddAll(t: Totals, keys: seq<Key>, u: Usage): Option<Totals> {
    if keys == [] then Some(t)
    else
      match AddAll(t, keys[..|keys| - 1], u)
      case None => None
      case Some(t') => if Fits(t', keys[|keys| - 1], u) then Some(AddAt(t', keys[|keys| - 1], u)) else None
  }

  /** The families in the order in which the source adds to them; the last three are for the cloud only. */
  const FAMILIES: seq<Family> :=
    [PerTask, ProviderTask, ProviderDay, ProviderMonth, RetryTask, RetryProviderTask, LocalWallTimeTask,
     CloudDay, CloudMonth, CloudCallsTask]

  function Rank(family: Family): (i: nat)
    ensures i < |FAMILIES| && FAMILIES[i] == family && (CloudOnly(family) <==> i >= 7)
  {
    match family
    case PerTask => 0
    case ProviderTask => 1
    case ProviderDay => 2
    case ProviderMonth => 3
    case RetryTask => 4
    case RetryProviderTask => 5
    case LocalWallTimeTask => 6
    case CloudDay => 7
    case CloudMonth => 8
    case CloudCallsTask => 9
  }

  function Scopes(r: Reservation): seq<Key> {
    seq(if r.cloud then 10 else 7, i requires 0 <= i < 10 => KeyIn(r, FAMILIES[i]))
  }

  lemma ScopesAreExact(r: Reservation)
    ensures forall key :: key in Scopes(r) <==> InScope(r, key)
    ensures forall i, j | 0 <= i < j < |Scopes(r)| :: Scopes(r)[i] != Scopes(r)[j]
  {
    forall key | InScope(r, key)
      ensures key in Scopes(r)
    {
      assert Scopes(r)[Rank(key.family)] == key;
    }
    forall i | 0 <= i < 10
      ensures Rank(FAMILIES[i]) == i
    {
    }
    forall i | 0 <= i < |Scopes(r)|
      ensures InScope(r, Scopes(r)[i]) && Rank(Scopes(r)[i].family) == i
    {
    }
  }

  predicate SameAt(t: Totals, t': Totals, key: Key) {
    && (key in t.usage <==> key in t'.usage) && (key in t.usage ==> t.usage[key] == t'.usage[key])
    && (key in t.counters <==> key in t'.counters) && (key in t.counters ==> t.counters[key] == t'.counters[key])
  }

  ghost predicate Added(t: Totals, t': Totals, keys: seq<Key>, u: Usage) {
    forall key :: if key in keys then Fits(t, key, u) && SameAt(AddAt(t, key, u), t', key) else SameAt(t, t', key)
  }

  lemma AddedOneMore(t: Totals, t': Totals, keys: seq<Key>, key: Key, u: Usage)
    requires Added(t, t', keys, u) && key !in keys
    ensures Fits(t', key, u) <==> Fits(t, key, u)
    ensures Fits(t, key, u) ==> Added(t, AddAt(t', key, u), keys + [key], u)
  {
    assert SameAt(t, t', key);
    if Fits(t, key, u) {
      var t'' := AddAt(t', key, u);
      forall k
        ensures if k in keys + [key] then Fits(t, k, u) && SameAt(AddAt(t, k, u), t'', k) else SameAt(t, t'', k)
      {
        if k != key {
          assert SameAt(t', t'', k);
        }
      }
    }
  }

  /** Additions at distinct keys do not disturb each other. */
  lemma {:induction false} AddAllPointwise(t: Totals, keys: seq<Key>, u: Usage)
    requires forall i, j | 0 <= i < j < |keys| :: keys[i] != keys[j]
    ensures AddAll(t, keys, u).Some? <==> forall key | key in keys :: Fits(t, key, u)
    ensures AddAll(t, keys, u).Some? ==> Added(t, AddAll(t, keys, u).value, keys, u)
  {
    if keys != [] {
      var front, last := keys[..|keys| - 1], keys[|keys| - 1];
      AddAllPointwise(t, front, u);
      assert keys == front + [last];
      assert last !in front;
      if AddAll(t, front, u).Some? {
        AddedOneMore(t, AddAll(t, front, u).value, front, last, u);
      }
    }
  }

  class MutableTotals {
    var usage: map<Key, Usage>
    var counters: map<Key, Safe>

    function Contents(): Totals
      reads this
    {
      Totals(usage, counters)
    }

    constructor ()
      ensures Contents() == Totals(map[], map[])
    {
      usage, counters := map[], map[];
    }

    method AddUsage(key: Key, u: Usage) returns (ok: bool)
      requires key.family.HoldsUsage()
      modifies this
      ensures ok == Fits(old(Contents()), key, u)
      ensures ok ==> Contents() == AddAt(old(Contents()), key, u)
    {
      if key !in usage {
        usage := usage[key := u];
        return true;
      }
      var sum := PlusSafe(usage[key], u);
      if sum.None? {
        return false;
      }
      usage := usage[key := sum.value];
      ok := true;
    }

    method AddNumber(key: Key, u: Usage) returns (ok: bool)
      requires !key.family.HoldsUsage()
      modifies this
      ensures ok == Fits(old(Contents()), key, u)
      ensures ok ==> Contents() == AddAt(old(Contents()), key, u)
    {
      var value := Read(u, CounterMeter(key.family));
      if value == 0 {
        return true;
      }
      var sum := Entry(counters, key) + value;
      if sum > MAX_SAFE {
        return false;
      }
      counters := counters[key := sum];
      ok := true;
    }

    /** The next addition of a run, unless an earlier one has already failed. */
    method Add(ghost start: Totals, ghost keys: seq<Key>, ghost i: nat, key: Key, u: Usage, soFar: bool)
      returns (ok: bool)
      requires i < |keys| && keys[i] == key
      requires soFar ==> AddAll(start, keys[..i], u) == Some(Contents())
      requires !soFar ==> AddAll(start, keys, u).None?
      modifies this
      ensures ok ==> AddAll(start, keys[..i + 1], u) == Some(Contents())
      ensures !ok ==> AddAll(start, keys, u).None?
    {
      if !soFar {
        return false;
      }
      assert keys[..i + 1] == keys[..i] + [key] && keys[..i + 1][..i] == keys[..i];
      if key.family.HoldsUsage() {
        ok := AddUsage(key, u);
      } else {
        ok := AddNumber(key, u);
      }
      if !ok {
        AddAllPrefix(start, keys, i + 1, u);
      }
    }

    /** The usages that every record adds to. */
    method AddUsages(r: Reservation, u: Usage, providerTask: string, providerDay: string, providerMonth: string,
        ghost start: Totals, ghost keys: seq<Key>)
      returns (ok: bool)
      requires |keys| >= 7 && forall i | 0 <= i < 7 :: keys[i] == KeyIn(r, FAMILIES[i])
      requires providerTask == KeyIn(r, ProviderTask).scope && providerDay == KeyIn(r, ProviderDay).scope
      requires providerMonth == KeyIn(r, ProviderMonth).scope
      requires AddAll(start, keys[..0], u) == Some(Contents())
      modifies this
      ensures ok ==> AddAll(start, keys[..4], u) == Some(Contents())
      ensures !ok ==> AddAll(start, keys, u).None?
    {
      ok := Add(start, keys, 0, KeyIn(r, PerTask), u, true);
      ok := Add(start, keys, 1, Key(ProviderTask, providerTask), u, ok);
      ok := Add(start, keys, 2, Key(ProviderDay, providerDay), u, ok);
      ok := Add(start, keys, 3, Key(ProviderMonth, providerMonth), u, ok);
    }

    /** The counters that every record adds to. */
    method AddCounters(r: Reservation, u: Usage, ghost start: Totals, ghost keys: seq<Key>, soFar: bool)
      returns (ok: bool)
      requires |keys| >= 7 && forall i | 0 <= i < 7 :: keys[i] == KeyIn(r, FAMILIES[i])
      requires soFar ==> AddAll(start, keys[..4], u) == Some(Contents())
      requires !soFar ==> AddAll(start, keys, u).None?
      modifies this
      ensures ok ==> AddAll(start, keys[..7], u) == Some(Contents())
      ensures !ok ==> AddAll(start, keys, u).None?
    {
      ok := Add(start, keys, 4, KeyIn(r, RetryTask), u, soFar);
      ok := Add(start, keys, 5, KeyIn(r, RetryProviderTask), u, ok);
      ok := Add(start, keys, 6, KeyIn(r, LocalWallTimeTask), u, ok);
    }

    /** The additions that only a cloud record makes. */
    method AddCloud(r: Reservation, u: Usage, ghost start: Totals, ghost keys: seq<Key>, soFar: bool)
      returns (ok: bool)
      requires |keys| == 10 && forall i | 7 <= i < 10 :: keys[i] == KeyIn(r, FAMILIES[i])
      requires soFar ==> AddAll(start, keys[..7], u) == Some(Contents())
      requires !soFar ==> AddAll(start, keys, u).None?
      modifies this
      ensures ok ==> AddAll(start, keys, u) == Some(Contents())
      ensures !ok ==> AddAll(start, keys, u).None?
    {
      ok := Add(start, keys, 7, KeyIn(r, CloudDay), u, soFar);
      ok := Add(start, keys, 8, KeyIn(r, CloudMonth), u, ok);
      ok := Add(start, keys, 9, KeyIn(r, CloudCallsTask), u, ok);
      assert keys[..10] == keys;
    }

    /** Adds one record to every total it belongs to. */
    method AddRecord(record: Record) returns (ok: bool)
      modifies this
      ensures ok <==> !Delimited(record.reservation)
                      && AddAll(old(Contents()), Scopes(record.reservation), record.Held()).Some?
      ensures ok ==> AddAll(old(Contents()), Scopes(record.reservation), record.Held()) == Some(Contents())
    {
      var r, u := record.reservation, record.Held();
      ghost var start, keys := Contents(), Scopes(r);
      var providerTask := ScopeKey(r.taskId, ProviderName(r.provider));
      var providerDay := ScopeKey(ProviderName(r.provider), DayOf(r));
      var providerMonth := ScopeKey(ProviderName(r.provider), MonthOf(r));
      ScopeKeysOf(r);
      if providerTask.None? || providerDay.None? || providerMonth.None? {
        return false;
      }
      assert keys[..0] == [];
      ok := AddUsages(r, u, providerTask.value, providerDay.value, providerMonth.value, start, keys);
      ok := AddCounters(r, u, start, keys, ok);
      if r.cloud {
        ok := AddCloud(r, u, start, keys, ok);
      } else {
        assert keys[..7] == keys;
      }
    }
  }

  lemma {:induction false} AddAllPrefix(t: Totals, keys: seq<Key>, n: nat, u: Usage)
    requires n <= |keys| && AddAll(t, keys[..n], u).None?
    ensures AddAll(t, keys, u).None?
  {
    if n == |keys| {
      assert keys[..n] == keys;
    } else {
      assert keys[..|keys| - 1][..n] == keys[..n];
      AddAllPrefix(t, keys[..|keys| - 1], n, u);
    }
  }

  // ---- One record at a time ----

  lemma SumSnoc(records: seq<Record>, record: Record, key: Key, meter: Meter)
    ensures Sum(records + [record], key, meter) == Sum(records, key, meter) + Share(record, key, meter)
  {
    assert (records + [record])[..|records|] == records;
  }

  lemma PopulatedSnoc(records: seq<Record>, record: Record, key: Key)
    ensures Populated(records + [record], key) <==> Populated(records, key) || Counts(record, key)
  {
    var all := records + [record];
    if Populated(records, key) {
      var i :| 0 <= i < |records| && Counts(records[i], key);
      assert Counts(all[i], key);
    }
    if Counts(record, key) {
      assert Counts(all[|records|], key);
    }
  }

  lemma {:induction false} UnpopulatedSum(records: seq<Record>, key: Key, meter: Meter)
    requires !Populated(records, key)
    ensures Sum(records, key, meter) == 0
  {
    if records != [] {
      var front, last := records[..|records| - 1], records[|records| - 1];
      assert records == front + [last];
      PopulatedSnoc(front, last, key);
      UnpopulatedSum(front, key, meter);
      SumSnoc(front, last, key, meter);
    }
  }

  lemma HeldCurrency(records: seq<Record>, i: nat)
    requires WellFormed(records) && i < |records|
    ensures CurrencyCode(records[i].Held().cost.currency)
  {
  }

  lemma PlusSafeIsMeterwise(left: Usage, right: Usage)
    requires CurrencyCode(left.cost.currency)
    ensures PlusSafe(left, right).Some? <==>
              (left.cost.currency == right.cost.currency
               && forall meter :: Read(left, meter) + Read(right, meter) <= MAX_SAFE)
    ensures PlusSafe(left, right).Some? ==>
            && PlusSafe(left, right).value.cost.currency == left.cost.currency
            && forall meter :: Read(PlusSafe(left, right).value, meter) == Read(left, meter) + Read(right, meter)
  {
    if left.cost.currency == right.cost.currency && forall meter :: Read(left, meter) + Read(right, meter) <= MAX_SAFE {
      assert Read(left, Input) + Read(right, Input) <= MAX_SAFE && Read(left, Output) + Read(right, Output) <= MAX_SAFE;
      assert Read(left, CacheRead) + Read(right, CacheRead) <= MAX_SAFE;
      assert Read(left, CacheWrite) + Read(right, CacheWrite) <= MAX_SAFE;
      assert Read(left, Calls) + Read(right, Calls) <= MAX_SAFE;
      assert Read(left, Retries) + Read(right, Retries) <= MAX_SAFE;
      assert Read(left, WallTime) + Read(right, WallTime) <= MAX_SAFE;
      assert Read(left, CostMicros) + Read(right, CostMicros) <= MAX_SAFE;
    }
  }

  /** The first usage of a scope that a record in it finds, and its currency. */
  lemma EntryCurrency(t: Totals, records: seq<Record>, key: Key)
    requires WellFormed(records) && MatchesAt(t, records, key) && key in t.usage
    ensures CurrencyCode(t.usage[key].cost.currency)
    ensures exists i :: 0 <= i < |records| && Counts(records[i], key)
                        && t.usage[key].cost.currency == records[i].Held().cost.currency
  {
    assert MatchesAt(t, records, key);
    var i :| 0 <= i < |records| && Counts(records[i], key);
    HeldCurrency(records, i);
  }

  /** At one key, a further record keeps the sums safe and brings no second currency. */
  ghost predicate Admits(records: seq<Record>, record: Record, key: Key) {
    && (forall meter | Keeps(key.family, meter) :: Sum(records + [record], key, meter) <= MAX_SAFE)
    && (key.family.HoldsUsage() ==> forall i | 0 <= i < |records| && Counts(records[i], key) ::
          records[i].Held().cost.currency == record.Held().cost.currency)
  }

  /** At one key, the checked addition succeeds exactly when sum and currency allow it. */
  lemma FitsAtKey(t: Totals, records: seq<Record>, record: Record, key: Key)
    requires WellFormed(records) && Matches(t, records) && OneCurrencyPerScope(records)
    requires Counts(record, key)
    ensures Fits(t, key, record.Held()) <==> Admits(records, record, key)
  {
    var u := record.Held();
    assert MatchesAt(t, records, key);
    forall meter
      ensures Sum(records + [record], key, meter) == Sum(records, key, meter) + Read(u, meter)
    {
      SumSnoc(records, record, key, meter);
    }
    if key.family.HoldsUsage() {
      if key in t.usage {
        EntryCurrency(t, records, key);
        PlusSafeIsMeterwise(t.usage[key], u);
      } else {
        forall meter
          ensures Sum(records, key, meter) == 0
        {
          UnpopulatedSum(records, key, meter);
        }
      }
    } else {
      var meter := CounterMeter(key.family);
      assert Keeps(key.family, meter);
      assert forall m | Keeps(key.family, m) :: m == meter;
      assert Entry(t.counters, key) == Sum(records, key, meter);
    }
  }

  ghost predicate AdmittedEverywhere(records: seq<Record>, record: Record) {
    forall key | Counts(record, key) :: Admits(records, record, key)
  }

  lemma AggregableSnoc(records: seq<Record>, record: Record)
    requires Aggregable(records)
    ensures Aggregable(records + [record]) <==>
              (record.IsReleased()
               || (!Delimited(record.reservation) && AdmittedEverywhere(records, record)))
  {
    var all := records + [record];
    forall key, meter
      ensures !Counts(record, key) ==> Sum(all, key, meter) == Sum(records, key, meter)
    {
      SumSnoc(records, record, key, meter);
    }
    assert all[|records|] == record;
    assert forall i | 0 <= i < |records| :: all[i] == records[i];
    if Aggregable(all) && !record.IsReleased() {
      forall key | Counts(record, key)
        ensures Admits(records, record, key)
      {
        assert Counts(all[|records|], key);
        forall i | 0 <= i < |records| && Counts(records[i], key) && key.family.HoldsUsage()
          ensures records[i].Held().cost.currency == record.Held().cost.currency
        {
          assert Counts(all[i], key);
        }
      }
    }
  }

  /** The additions of one record succeed exactly when the records stay aggregable. */
  lemma RecordFits(t: Totals, records: seq<Record>, record: Record)
    requires WellFormed(records) && Matches(t, records) && Aggregable(records) && !record.IsReleased()
    ensures Aggregable(records + [record]) <==>
            !Delimited(record.reservation) && AddAll(t, Scopes(record.reservation), record.Held()).Some?
  {
    ScopesAreExact(record.reservation);
    AddAllPointwise(t, Scopes(record.reservation), record.Held());
    AggregableSnoc(records, record);
    forall key | Counts(record, key)
      ensures Fits(t, key, record.Held()) <==> Admits(records, record, key)
    {
      FitsAtKey(t, records, record, key);
    }
  }

  lemma MatchesAtStep(t: Totals, t': Totals, records: seq<Record>, record: Record, key: Key)
    requires WellFormed(records) && MatchesAt(t, records, key) && !record.IsReleased()
    requires if InScope(record.reservation, key)
             then Fits(t, key, record.Held()) && SameAt(AddAt(t, key, record.Held()), t', key)
             else SameAt(t, t', key)
    ensures MatchesAt(t', records + [record], key)
  {
    var all, u := records + [record], record.Held();
    PopulatedSnoc(records, record, key);
    forall meter
      ensures Sum(all, key, meter) == Sum(records, key, meter) + if Counts(record, key) then Read(u, meter) else 0
    {
      SumSnoc(records, record, key, meter);
    }
    if Counts(record, key) && key.family.HoldsUsage() {
      if key in t.usage {
        EntryCurrency(t, records, key);
        PlusSafeIsMeterwise(t.usage[key], u);
      } else {
        forall meter
          ensures Sum(records, key, meter) == 0
        {
          UnpopulatedSum(records, key, meter);
        }
      }
    }
  }

  lemma RecordAdded(t: Totals, records: seq<Record>, record: Record)
    requires WellFormed(records) && Matches(t, records) && !record.IsReleased()
    requires AddAll(t, Scopes(record.reservation), record.Held()).Some?
    ensures Matches(AddAll(t, Scopes(record.reservation), record.Held()).value, records + [record])
  {
    ScopesAreExact(record.reservation);
    AddAllPointwise(t, Scopes(record.reservation), record.Held());
    var t' := AddAll(t, Scopes(record.reservation), record.Held()).value;
    forall key
      ensures MatchesAt(t', records + [record], key)
    {
      assert MatchesAt(t, records, key);
      MatchesAtStep(t, t', records, record, key);
    }
  }

  lemma ReleasedAdded(t: Totals, records: seq<Record>, record: Record)
    requires Matches(t, records) && record.IsReleased()
    ensures Matches(t, records + [record])
    ensures Aggregable(records) ==> Aggregable(records + [record])
  {
    forall key
      ensures MatchesAt(t, records + [record], key)
    {
      assert MatchesAt(t, records, key);
      PopulatedSnoc(records, record, key);
      forall meter
        ensures Sum(records + [record], key, meter) == Sum(records, key, meter)
      {
        SumSnoc(records, record, key, meter);
      }
    }
    if Aggregable(records) {
      AggregableSnoc(records, record);
    }
  }

  lemma AggregablePrefix(records: seq<Record>, n: nat)
    requires n <= |records| && Aggregable(records)
    ensures Aggregable(records[..n])
  {
    forall key: Key, meter | Keeps(key.family, meter)
      ensures Sum(records[..n], key, meter) <= MAX_SAFE
    {
      SumPrefix(records, n, record => Share(record, key, meter));
    }
  }

  // ---- The derived state ----

  datatype BudgetState = BudgetState(
    active: map<string, Record>, blocking: set<string>, settledIds: set<string>,
    totals: Totals, circuitOpen: bool, automaticBlocked: bool)

  function ActiveIds(records: seq<Record>): set<string> {
    set i | 0 <= i < |records| && records[i].IsActive() :: records[i].reservation.reservationId
  }

  function ClosedIds(records: seq<Record>): set<string> {
    set i | 0 <= i < |records| && !records[i].IsActive() :: records[i].reservation.reservationId
  }

  /** An overrun settlement opens the discrepancy circuit for good. */
  predicate Circuit(records: seq<Record>) {
    exists i | 0 <= i < |records| :: records[i].Overran()
  }

  /** Active reservations block automatic calls: all of them, or those recovered at start-up. */
  function Blocking(records: seq<Record>, recovered: Option<set<string>>): set<string> {
    if recovered.None? then ActiveIds(records) else ActiveIds(records) * recovered.value
  }

  ghost predicate Describes(state: BudgetState, records: seq<Record>, recovered: Option<set<string>>) {
    && state.active.Keys == ActiveIds(records)
    && (forall i | 0 <= i < |records| && records[i].IsActive() ::
          state.active[records[i].reservation.reservationId] == records[i])
    && state.settledIds == ClosedIds(records)
    && state.blocking == Blocking(records, recovered)
    && Matches(state.totals, records)
    && (state.circuitOpen <==> Circuit(records))
    && (state.automaticBlocked <==> state.circuitOpen || state.blocking != {})
  }

  /** A log from which a budget state can be derived. */
  ghost predicate Derivable(events: seq<Event>) {
    Records(events).Some? && Aggregable(Records(events).value)
  }

  lemma {:induction false} RecordsPrefix(events: seq<Event>, n: nat)
    requires n <= |events| && Records(events[..n]).None?
    ensures Records(events).None?
  {
    if n == |events| {
      assert events[..n] == events;
    } else {
      assert events[..|events| - 1][..n] == events[..n];
      RecordsPrefix(events[..|events| - 1], n);
    }
  }

  lemma CircuitStep(records: seq<Record>, event: Event)
    requires Replay(records, event).Some?
    ensures Circuit(Replay(records, event).value)
            <==> Circuit(records) || (event.BudgetSettlement? && event.settlement.overrun)
  {
    var records' := Replay(records, event).value;
    if Circuit(records) {
      var i :| 0 <= i < |records| && records[i].Overran();
      assert records'[i].Overran();
    }
    if event.BudgetSettlement? && event.settlement.overrun {
      assert records'[Find(records, event.settlement.reservationId)].Overran();
    }
  }

  /** The first loop of the replay: records by reservation id, and the circuit. */
  method ReplayRecords(events: seq<Event>) returns (r: Option<(seq<Record>, bool)>)
    ensures r.Some? <==> Records(events).Some?
    ensures r.Some? ==> r.value.0 == Records(events).value && (r.value.1 <==> Circuit(r.value.0))
  {
    var records: seq<Record> := [];
    var circuit := false;
    var n := 0;
    while n < |events|
      invariant 0 <= n <= |events|
      invariant Records(events[..n]) == Some(records)
      invariant circuit <==> Circuit(records)
    {
      assert events[..n + 1] == events[..n] + [events[n]];
      RecordsAppend(events[..n], events[n]);
      var next := Replay(records, events[n]);
      if next.None? {
        RecordsPrefix(events, n + 1);
        return None;
      }
      CircuitStep(records, events[n]);
      circuit := circuit || (events[n].BudgetSettlement? && events[n].settlement.overrun);
      records := next.value;
      n := n + 1;
    }
    assert events[..n] == events;
    r := Some((records, circuit));
  }

  /** A released record is skipped; any other is added to its totals. */
  method Include(totals: MutableTotals, ghost before: seq<Record>, record: Record) returns (ok: bool)
    requires WellFormed(before) && Aggregable(before) && Matches(totals.Contents(), before)
    modifies totals
    ensures ok <==> Aggregable(before + [record])
    ensures ok ==> Matches(totals.Contents(), before + [record])
  {
    if record.IsReleased() {
      ReleasedAdded(totals.Contents(), before, record);
      return true;
    }
    RecordFits(totals.Contents(), before, record);
    ghost var t := totals.Contents();
    ok := totals.AddRecord(record);
    if ok {
      RecordAdded(t, before, record);
    }
  }

  /** The second loop: which reservations are active, and the totals. */
  method AggregateRecords(records: seq<Record>)
    returns (r: Option<Totals>, active: map<string, Record>, settledIds: set<string>)
    requires WellFormed(records)
    ensures r.Some? <==> Aggregable(records)
    ensures r.Some? ==> Matches(r.value, records)
    ensures r.Some? ==> active.Keys == ActiveIds(records) && settledIds == ClosedIds(records)
    ensures r.Some? ==> forall i | 0 <= i < |records| && records[i].IsActive() ::
              active[records[i].reservation.reservationId] == records[i]
  {
    var totals := new MutableTotals();
    active, settledIds := map[], {};
    var n := 0;
    assert Matches(totals.Contents(), records[..0]);
    while n < |records|
      invariant 0 <= n <= |records|
      invariant Aggregable(records[..n]) && Matches(totals.Contents(), records[..n])
      invariant active.Keys == ActiveIds(records[..n]) && settledIds == ClosedIds(records[..n])
      invariant forall i | 0 <= i < n && records[i].IsActive() ::
                  active[records[i].reservation.reservationId] == records[i]
    {
      var record := records[n];
      assert records[..n + 1] == records[..n] + [record];
      IdsSnoc(records[..n], record);
      var ok := Include(totals, records[..n], record);
      if !ok {
        if Aggregable(records) {
          AggregablePrefix(records, n + 1);
        }
        return None, active, settledIds;
      }
      if record.IsActive() {
        active := active[record.reservation.reservationId := record];
      } else {
        settledIds := settledIds + {record.reservation.reservationId};
      }
      n := n + 1;
    }
    assert records[..n] == records;
    r := Some(totals.Contents());
  }

  lemma IdsSnoc(records: seq<Record>, record: Record)
    ensures ActiveIds(records + [record]) ==
            ActiveIds(records) + if record.IsActive() then {record.reservation.reservationId} else {}
    ensures ClosedIds(records + [record]) ==
            ClosedIds(records) + if record.IsActive() then {} else {record.reservation.reservationId}
  {
    var all := records + [record];
    assert all[|records|] == record;
    assert forall i | 0 <= i < |records| :: all[i] == records[i];
  }

  method DeriveBudgetState(events: seq<Event>, recovered: Option<set<string>>) returns (r: Option<BudgetState>)
    ensures r.Some? <==> Derivable(events)
    ensures r.Some? ==> Describes(r.value, Records(events).value, recovered)
  {
    var replayed := ReplayRecords(events);
    if replayed.None? {
      return None;
    }
    var (records, circuit) := replayed.value;
    RecordsWellFormed(events);
    var totals, active, settledIds := AggregateRecords(records);
    if totals.None? {
      return None;
    }
    var blocking := set id | id in active && (recovered.None? || id in recovered.value);
    r := Some(BudgetState(active, blocking, settledIds, totals.value, circuit, circuit || blocking != {}));
  }

  /** The log and the recovered ids determine the derived state completely. */
  lemma StateUnique(a: BudgetState, b: BudgetState, records: seq<Record>, recovered: Option<set<string>>)
    requires Describes(a, records, recovered) && Describes(b, records, recovered)
    ensures a == b
  {
    TotalsUnique(a.totals, b.totals, records);
    assert a.active == b.active;
  }
}
