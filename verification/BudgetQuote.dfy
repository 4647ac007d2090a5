/**
 A quote is an exact dry run of a reservation, and cost arithmetic makes one of the overrun
 tests redundant.
 */
module BudgetQuote {
  import opened Prelude
  import opened Money
  import opened Pricing
  import opened BudgetEvents
  import opened BudgetReplay
  import opened BudgetPolicy
  import opened BudgetControl

  /** The same reservation under other ids. */
  function Renamed(r: Reservation, eventId: string, reservationId: string, attemptId: string): Reservation {
    r.(eventId := eventId, reservationId := reservationId, attemptId := attemptId)
  }

  predicate SameButIds(a: Reservation, b: Reservation) {
    b == Renamed(a, b.eventId, b.reservationId, b.attemptId)
  }

  lemma {:induction false} KnownIsReserved(events: seq<Event>, id: string)
    requires Records(events).Some?
    ensures Knows(Records(events).value, id) <==> UsesReservationId(events, id)
  {
    if events != [] {
      var front, last := events[..|events| - 1], events[|events| - 1];
      KnownIsReserved(front, id);
      var before, after := Records(front).value, Records(events).value;
      assert forall i | 0 <= i < |front| :: front[i] == events[i];
      assert UsesReservationId(events, id) <==>
        UsesReservationId(front, id) || (last.BudgetReservation? && last.reservation.reservationId == id);
      KnownStep(before, last, id);
    }
  }

  lemma KnownStep(records: seq<Record>, event: Event, id: string)
    requires Replay(records, event).Some?
    ensures Knows(Replay(records, event).value, id) <==>
            Knows(records, id) || (event.BudgetReservation? && event.reservation.reservationId == id)
  {
    var records' := Replay(records, event).value;
    if Knows(records, id) {
      assert records'[Find(records, id)].reservation.reservationId == id;
    }
    if event.BudgetReservation? {
      assert records'[|records|].reservation == event.reservation;
      assert forall i | 0 <= i < |records| :: records'[i] == records[i];
    } else {
      assert |records'| == |records|;
      assert forall i | 0 <= i < |records| :: records'[i].reservation == records[i].reservation;
    }
  }

  /** Ids play no part in the totals. */
  lemma RenamedSums(records: seq<Record>, a: Reservation, b: Reservation, key: Key, meter: Meter)
    requires SameButIds(a, b)
    ensures Sum(records + [Record(a, None)], key, meter) == Sum(records + [Record(b, None)], key, meter)
  {
    SumSnoc(records, Record(a, None), key, meter);
    SumSnoc(records, Record(b, None), key, meter);
  }

  lemma RenamedAdmits(records: seq<Record>, a: Reservation, b: Reservation, key: Key)
    requires SameButIds(a, b)
    ensures Admits(records, Record(a, None), key) <==> Admits(records, Record(b, None), key)
  {
    forall meter {
      RenamedSums(records, a, b, key, meter);
    }
  }

  lemma RenamedEverywhere(records: seq<Record>, a: Reservation, b: Reservation)
    requires SameButIds(a, b) && AdmittedEverywhere(records, Record(a, None))
    ensures AdmittedEverywhere(records, Record(b, None))
  {
    forall key | Counts(Record(b, None), key)
      ensures Admits(records, Record(b, None), key)
    {
      assert Counts(Record(a, None), key);
      RenamedAdmits(records, a, b, key);
    }
  }

  lemma RenamedAggregable(records: seq<Record>, a: Reservation, b: Reservation)
    requires SameButIds(a, b) && Aggregable(records)
    ensures Aggregable(records + [Record(a, None)]) <==> Aggregable(records + [Record(b, None)])
  {
    AggregableSnoc(records, Record(a, None));
    AggregableSnoc(records, Record(b, None));
    if AdmittedEverywhere(records, Record(a, None)) { RenamedEverywhere(records, a, b); }
    if AdmittedEverywhere(records, Record(b, None)) { RenamedEverywhere(records, b, a); }
  }

  lemma RenamedDerivable(events: seq<Event>, a: Reservation, b: Reservation)
    requires SameButIds(a, b) && Derivable(events)
    requires !UsesReservationId(events, a.reservationId) && !UsesReservationId(events, b.reservationId)
    ensures Derivable(events + [BudgetReservation(a)]) <==> Derivable(events + [BudgetReservation(b)])
  {
    KnownIsReserved(events, a.reservationId);
    KnownIsReserved(events, b.reservationId);
    RecordsAppend(events, BudgetReservation(a));
    RecordsAppend(events, BudgetReservation(b));
    RenamedAggregable(Records(events).value, a, b);
  }

  lemma RenamedChecks(cfg: Config, records: seq<Record>, a: Reservation, b: Reservation)
    requires SameButIds(a, b)
    ensures FirstFailing(LimitChecks(cfg, a, CandidateSum(records, a)))
            == FirstFailing(LimitChecks(cfg, b, CandidateSum(records, b)))
  {
    var f, g := CandidateSum(records, a), CandidateSum(records, b);
    forall family, meter
      ensures f(family, meter) == g(family, meter)
    {
      RenamedSums(records, a, b, KeyIn(a, family), meter);
    }
    ChecksReadOwnScopes(cfg, a, f, g);
    ChecksIgnoreIds(cfg, a, b, g);
  }

  lemma ChecksIgnoreIds(cfg: Config, a: Reservation, b: Reservation, at: Reading)
    requires SameButIds(a, b)
    ensures LimitChecks(cfg, a, at) == LimitChecks(cfg, b, at)
  {
  }

  /** The schema treats the two sets of ids alike. */
  ghost predicate IdsParseAlike(cfg: Config, a: ReserveRequest, b: ReserveRequest) {
    forall r: Reservation ::
      cfg.parses(BudgetReservation(Renamed(r, a.eventId, a.reservationId, a.attemptId)))
      == cfg.parses(BudgetReservation(Renamed(r, b.eventId, b.reservationId, b.attemptId)))
  }

  lemma TermsIgnoreIds(cfg: Config, q: QuoteRequest, a: ReserveRequest, b: ReserveRequest)
    requires a == q.WithIds(a.eventId, a.reservationId, a.attemptId)
    requires b == q.WithIds(b.eventId, b.reservationId, b.attemptId)
    ensures TermsFor(cfg, a) == TermsFor(cfg, b)
  {
    assert ProviderRefusal(cfg, a) == ProviderRefusal(cfg, b);
  }

  lemma RenamedReservation(cfg: Config, q: QuoteRequest, a: ReserveRequest, b: ReserveRequest, now: Option<string>)
    requires a == q.WithIds(a.eventId, a.reservationId, a.attemptId)
    requires b == q.WithIds(b.eventId, b.reservationId, b.attemptId)
    requires TermsFor(cfg, a) == TermsFor(cfg, b) && IdsParseAlike(cfg, a, b)
    ensures ReservationFor(cfg, a, now).Err? ==> ReservationFor(cfg, b, now) == ReservationFor(cfg, a, now)
    ensures ReservationFor(cfg, a, now).Ok? ==>
              ReservationFor(cfg, b, now)
              == Ok(Renamed(ReservationFor(cfg, a, now).value, b.eventId, b.reservationId, b.attemptId))
  {
    if TermsFor(cfg, a).Ok? && now.Some? {
      var r := Draft(cfg, a, now.value);
      assert r == Renamed(r, a.eventId, a.reservationId, a.attemptId);
      assert Draft(cfg, b, now.value) == Renamed(r, b.eventId, b.reservationId, b.attemptId);
    }
  }

  lemma CheckedIgnoresIds(cfg: Config, c: Controller, a: Reservation, b: Reservation)
    requires c.Valid() && SameButIds(a, b)
    requires !UsesReservationId(c.events, a.reservationId) && !UsesReservationId(c.events, b.reservationId)
    ensures match Checked(cfg, c, a)
            case Refuse(failure) => Checked(cfg, c, b) == Refuse(failure)
            case Append(event, recovered) =>
              event == BudgetReservation(a) && Checked(cfg, c, b) == Append(BudgetReservation(b), recovered)
  {
    RenamedDerivable(c.events, a, b);
    RenamedChecks(cfg, c.Records(), a, b);
  }

  lemma FreshIsPrepared(cfg: Config, c: Controller, q: ReserveRequest, now: Option<string>)
    requires c.Valid() && !UsesEventId(c.events, q.eventId) && !UsesReservationId(c.events, q.reservationId)
    ensures DecideReserve(cfg, c, q, now) == Prepare(cfg, c, q, now)
  {
  }

  /** Two decisions that differ in the ids of the reservation they write, if they write one. */
  ghost predicate AlikeButIds(
      quoted: Decision, reserved: Decision, eventId: string, reservationId: string, attemptId: string)
  {
    if quoted.Append? then
      reserved.Append? && quoted.event.BudgetReservation?
      && reserved.event == BudgetReservation(Renamed(quoted.event.reservation, eventId, reservationId, attemptId))
    else reserved == quoted
  }

  lemma RefusedAlike(cfg: Config, c: Controller, a: ReserveRequest, b: ReserveRequest, now: Option<string>)
    requires c.Valid() && a.automatic == b.automatic
    requires ReservationFor(cfg, a, now).Err? && ReservationFor(cfg, b, now) == ReservationFor(cfg, a, now)
    ensures Prepare(cfg, c, a, now).Refuse? && Prepare(cfg, c, b, now) == Prepare(cfg, c, a, now)
  {
  }

  lemma CheckedAlike(
      cfg: Config, c: Controller, a: ReserveRequest, b: ReserveRequest, now: Option<string>, ra: Reservation,
      rb: Reservation)
    requires c.Valid() && a.automatic == b.automatic
    requires ReservationFor(cfg, a, now) == Ok(ra) && ReservationFor(cfg, b, now) == Ok(rb)
    ensures (Prepare(cfg, c, a, now) == Checked(cfg, c, ra) && Prepare(cfg, c, b, now) == Checked(cfg, c, rb))
            || (Prepare(cfg, c, a, now).Refuse? && Prepare(cfg, c, b, now) == Prepare(cfg, c, a, now))
  {
  }

  lemma PreparedAlike(cfg: Config, c: Controller, q: QuoteRequest, hash: string, now: Option<string>,
                      eventId: string, reservationId: string, attemptId: string)
    requires c.Valid()
    requires !UsesReservationId(c.events, reservationId) && !UsesReservationId(c.events, q.DryRun(hash).reservationId)
    requires IdsParseAlike(cfg, q.DryRun(hash), q.WithIds(eventId, reservationId, attemptId))
    ensures AlikeButIds(Prepare(cfg, c, q.DryRun(hash), now),
                        Prepare(cfg, c, q.WithIds(eventId, reservationId, attemptId), now),
                        eventId, reservationId, attemptId)
  {
    var dry, wet := q.DryRun(hash), q.WithIds(eventId, reservationId, attemptId);
    TermsIgnoreIds(cfg, q, dry, wet);
    RenamedReservation(cfg, q, dry, wet, now);
    if ReservationFor(cfg, dry, now).Ok? {
      var r := ReservationFor(cfg, dry, now).value;
      ReservationCarriesRequest(cfg, dry, now);
      CheckedAlike(cfg, c, dry, wet, now, r, Renamed(r, eventId, reservationId, attemptId));
      CheckedIgnoresIds(cfg, c, r, Renamed(r, eventId, reservationId, attemptId));
    } else {
      RefusedAlike(cfg, c, dry, wet, now);
    }
  }

  /**
   With fresh ids that the schema accepts as it accepts the made-up ones, a quote allows exactly
   what reserving at the same moment would append, and denies with the same failure.
   */
  lemma QuoteIsExactDryRun(cfg: Config, c: Controller, q: QuoteRequest, now: Option<string>,
                           eventId: string, reservationId: string, attemptId: string)
    requires c.Valid()
    requires !UsesEventId(c.events, eventId) && !UsesReservationId(c.events, reservationId)
    requires var dry := q.DryRun(cfg.quoteHash(|c.events|, q));
             !UsesReservationId(c.events, dry.reservationId)
             && IdsParseAlike(cfg, dry, q.WithIds(eventId, reservationId, attemptId))
    ensures var quoted := DecideQuote(cfg, c, q, now);
            var reserved := DecideReserve(cfg, c, q.WithIds(eventId, reservationId, attemptId), now);
            && (quoted.Answer? <==> reserved.Append?)
            && (quoted.Refuse? ==> reserved == quoted)
            && (quoted.Answer? ==>
                  reserved.event == BudgetReservation(Renamed(quoted.quoted, eventId, reservationId, attemptId)))
  {
    var hash := cfg.quoteHash(|c.events|, q);
    FreshIsPrepared(cfg, c, q.WithIds(eventId, reservationId, attemptId), now);
    PreparedAlike(cfg, c, q, hash, now, eventId, reservationId, attemptId);
  }

  /**
   Without cache tokens, a settlement whose tokens stay within its reservation costs no more than
   was reserved: the overrun flag then depends on wall time alone.
   */
  lemma CostTestIsRedundant(cfg: Config, r: Reservation, q: SettleRequest, now: Option<string>)
    requires ValidReservation(r) && SettlementFor(cfg, r, q, now).Ok?
    requires q.usage.cacheRead == 0 && q.usage.cacheWrite == 0
    requires q.usage.input <= r.inputTokens && q.usage.output <= r.outputTokens
    ensures SettlementFor(cfg, r, q, now).value.cost.amountMicros <= r.cost.amountMicros
    ensures SettlementFor(cfg, r, q, now).value.overrun <==> q.wallMs > r.wallMs
  {
    CostMonotone(Resolved(r.cost.currency, r.rates), q.usage, TokenUsage(r.inputTokens, r.outputTokens, 0, 0));
  }
}
