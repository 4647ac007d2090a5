/**
 A run in which the restart after a completed reservation fails, because the controller does not
 see the event ids of other components.
 */
module BudgetRestart {
  import opened Prelude
  import opened Money
  import opened Pricing
  import opened BudgetEvents
  import opened BudgetReplay
  import opened BudgetPolicy
  import opened BudgetControl
  import opened BudgetRuns

  const OPEN_PROVIDER: ProviderConfig := ProviderConfig(
    true, Some("m"), true, {Public}, Some(9), Some(9), Some(9), Some(Money("USD", 9)), Some(9), Some(9))

  const OPEN_SCOPE: ScopedLimits := ScopedLimits(Some(9), Some(9), Some(9), Some(Money("USD", 9)))

  /** A free local provider with room for one call. */
  const OPEN_CONFIG: Config := Config(
    OPEN_PROVIDER, OPEN_PROVIDER, OPEN_PROVIDER, OPEN_PROVIDER, OPEN_PROVIDER, LocalOnly,
    Limits(OPEN_SCOPE, OPEN_SCOPE, OPEN_SCOPE, OPEN_SCOPE, OPEN_SCOPE, OPEN_SCOPE, Some(9), Some(9), Some(9), Some(9)),
    [PricingSnapshot(LocalAi, Some("m"), Some("USD"), Some(0), Some(0), None, None, Known)], "v", "h",
    event => true, (count, request) => "")

  const NOW: string := "2026-01-01T00:00:00.000Z"

  const CLASHING_REQUEST: ReserveRequest :=
    ReserveRequest("x", "r", "t", "a", LocalAi, "m", Local, Public, true, false, 1)

  const CLASHING_RESERVATION: Reservation := Reservation(
    "x", NOW, "r", "t", "a", LocalAi, "m", Local, Public, true, false, false, 1, 9, Money("USD", 0), 9,
    "v", Rates(0, 0, None, None), "h")

  const CLASHING_RUN: seq<Step> :=
    [Start, OtherAppends(OtherEvent("x", ""), Written), Call(Reserve(CLASHING_REQUEST)), Begin(Some(NOW)),
     Finish(Written)]

  lemma ClashingPrice()
    ensures Resolve(OPEN_CONFIG.snapshots, LocalAi, "m", true, false) == Some(FREE)
  {
    assert FindSnapshot(OPEN_CONFIG.snapshots, LocalAi) == Some(OPEN_CONFIG.snapshots[0]);
  }

  const FREE: Resolved := Resolved("USD", Rates(0, 0, None, None))

  /** At a rate of zero nothing is charged. */
  lemma NothingCharged(tokens: nat)
    requires tokens <= MAX_SAFE
    ensures Payable(tokens, Some(0)) && ChargeMicros(tokens, Some(0)) == 0
  {
    assert CeilingCost(tokens, 0) == 0;
  }

  lemma FreeOfCharge(currency: string, input: nat, output: nat)
    requires CurrencyCode(currency) && input <= MAX_SAFE && output <= MAX_SAFE
    ensures CostOf(Resolved(currency, Rates(0, 0, None, None)), TokenUsage(input, output, 0, 0))
            == Some(Money(currency, 0))
  {
    NothingCharged(input);
    NothingCharged(output);
  }

  lemma ClashingCost()
    ensures CostOf(FREE, TokenUsage(1, 9, 0, 0)) == Some(Money("USD", 0))
  {
    FreeOfCharge("USD", 1, 9);
  }

  lemma TermsGiven(cfg: Config, q: ReserveRequest, pricing: Resolved, cost: Money)
    requires cfg.Provider(q.provider).enabled && ProviderRefusal(cfg, q).None?
    requires Resolve(cfg.snapshots, q.provider, q.model, q.automatic, q.provider != LocalAi) == Some(pricing)
    requires cfg.Provider(q.provider).maxOutputTokens.Some? && cfg.Provider(q.provider).timeoutMs.Some?
    requires CostOf(pricing, TokenUsage(q.inputTokens, cfg.Provider(q.provider).maxOutputTokens.value, 0, 0))
             == Some(cost)
    ensures TermsFor(cfg, q) == Ok((pricing, cost))
  {
  }

  lemma ClashingProvider()
    ensures OPEN_CONFIG.Provider(LocalAi) == OPEN_PROVIDER && ProviderRefusal(OPEN_CONFIG, CLASHING_REQUEST).None?
  {
    assert RouteProviders(Local)[0] == LocalAi;
  }

  lemma ClashingOffer()
    ensures TermsFor(OPEN_CONFIG, CLASHING_REQUEST) == Ok((FREE, Money("USD", 0)))
  {
    ClashingPrice();
    ClashingCost();
    ClashingProvider();
    TermsGiven(OPEN_CONFIG, CLASHING_REQUEST, FREE, Money("USD", 0));
  }

  lemma ReservationGiven(cfg: Config, q: ReserveRequest, now: string)
    requires TermsFor(cfg, q).Ok? && cfg.parses(BudgetReservation(Draft(cfg, q, now)))
    ensures ReservationFor(cfg, q, Some(now)) == Ok(Draft(cfg, q, now))
  {
  }

  lemma ClashingTerms()
    ensures ReservationFor(OPEN_CONFIG, CLASHING_REQUEST, Some(NOW)) == Ok(CLASHING_RESERVATION)
  {
    ClashingOffer();
    ClashingProvider();
    assert Draft(OPEN_CONFIG, CLASHING_REQUEST, NOW) == CLASHING_RESERVATION;
    ReservationGiven(OPEN_CONFIG, CLASHING_REQUEST, NOW);
  }

  lemma ClashingSums(key: Key, meter: Meter)
    ensures Sum([Record(CLASHING_RESERVATION, None)], key, meter)
            == Share(Record(CLASHING_RESERVATION, None), key, meter)
  {
    SumOne(Record(CLASHING_RESERVATION, None), record => Share(record, key, meter));
  }

  lemma ClashingTotals()
    ensures Aggregable([Record(CLASHING_RESERVATION, None)])
  {
    forall key: Key, meter | Keeps(key.family, meter)
      ensures Sum([Record(CLASHING_RESERVATION, None)], key, meter) <= 9
    {
      ClashingSums(key, meter);
    }
  }

  lemma ClashingChecks()
    ensures FirstFailing(LimitChecks(OPEN_CONFIG, CLASHING_RESERVATION, CandidateSum([], CLASHING_RESERVATION))).None?
  {
    var r := CLASHING_RESERVATION;
    var at := CandidateSum([], r);
    assert [] + [Record(r, None)] == [Record(r, None)];
    forall family, meter
      ensures at(family, meter) <= 9
    {
      ClashingSums(KeyIn(r, family), meter);
    }
    RoomForOne(r, at);
  }

  lemma RoomForOne(r: Reservation, at: Reading)
    requires r == CLASHING_RESERVATION && forall family, meter :: at(family, meter) <= 9
    ensures FirstFailing(LimitChecks(OPEN_CONFIG, r, at)).None?
  {
    var checks := LimitChecks(OPEN_CONFIG, r, at);
    assert CloudChecks(OPEN_CONFIG.limits, r, at) == [];
    assert RetryChecks(OPEN_CONFIG.limits, OPEN_PROVIDER, r, at) == [];
    forall c | c in checks
      ensures c.Failing().None?
    {
    }
  }

  lemma ClashingLog()
    ensures Derivable([]) && Derivable([BudgetReservation(CLASHING_RESERVATION)])
    ensures Records([]) == Some([])
  {
    var r := CLASHING_RESERVATION;
    RecordsAppend([], BudgetReservation(r));
    assert [] + [BudgetReservation(r)] == [BudgetReservation(r)] && [] + [Record(r, None)] == [Record(r, None)];
    ClashingTotals();
  }

  lemma ClashingChecked(c: Controller)
    requires c == Controller([], {}, false) && c.Valid() && Records([]) == Some([])
    ensures Checked(OPEN_CONFIG, c, CLASHING_RESERVATION) == Append(BudgetReservation(CLASHING_RESERVATION), {})
  {
    ClashingLog();
    ClashingChecks();
    assert [] + [BudgetReservation(CLASHING_RESERVATION)] == [BudgetReservation(CLASHING_RESERVATION)];
  }

  /** A reservation with a fresh id, made by a controller without events, is decided by the checks. */
  lemma FreshReserveIsChecked(cfg: Config, c: Controller, q: ReserveRequest, now: Option<string>, r: Reservation)
    requires c == Controller([], {}, false) && c.Valid() && c.Records() == []
    requires ReservationFor(cfg, q, now) == Ok(r)
    ensures DecideReserve(cfg, c, q, now) == Checked(cfg, c, r)
  {
    assert Blocking([], Some({})) == {};
  }

  lemma ClashingDecision(c: Controller)
    requires c == Controller([], {}, false)
    ensures c.Valid()
    ensures Decide(OPEN_CONFIG, c, Reserve(CLASHING_REQUEST), Some(NOW))
            == Append(BudgetReservation(CLASHING_RESERVATION), {})
  {
    ClashingLog();
    ClashingTerms();
    ClashingChecked(c);
    FreshReserveIsChecked(OPEN_CONFIG, c, CLASHING_REQUEST, Some(NOW), CLASHING_RESERVATION);
  }

  lemma RunExtends(cfg: Config, steps: seq<Step>, k: nat, s: System, s': System)
    requires k < |steps| && Run(cfg, steps[..k]) == Some(s) && Next(cfg, s, steps[k]) == Some(s')
    ensures Run(cfg, steps[..k + 1]) == Some(s')
  {
    assert steps[..k + 1][..k] == steps[..k] && steps[..k + 1][k] == steps[k];
  }

  const OTHER: Event := OtherEvent("x", "")
  const FRESH: Controller := Controller([], {}, false)

  /** The controller has started on an empty log. */
  const STARTED: System := System([], false, [0], Some(Session(FRESH, FRESH, [], [], None, [])))

  lemma ControllerStarts()
    ensures Next(OPEN_CONFIG, EMPTY, Start) == Some(STARTED)
  {
    ClashingLog();
    assert [] + [0] == [0];
    assert StartedFrom([]) == FRESH;
  }

  /** Another component has written event id "x". */
  const SHARED: System := STARTED.(log := [OTHER])

  lemma OtherWrites()
    ensures Next(OPEN_CONFIG, STARTED, OtherAppends(OTHER, Written)) == Some(SHARED)
  {
    assert [] + [OTHER] == [OTHER];
  }

  /** A call that uses the same event id is queued. */
  const QUEUED: Session := Session(FRESH, FRESH, [Reserve(CLASHING_REQUEST)], [Reserve(CLASHING_REQUEST)], None, [])
  const CALLED: System := SHARED.(session := Some(QUEUED))

  lemma CallArrives()
    ensures Next(OPEN_CONFIG, SHARED, Call(Reserve(CLASHING_REQUEST))) == Some(CALLED)
  {
    assert [] + [Reserve(CLASHING_REQUEST)] == [Reserve(CLASHING_REQUEST)];
  }

  /** The queued reservation has been decided and is waiting for the storage. */
  const DECISION: Decision := Append(BudgetReservation(CLASHING_RESERVATION), {})
  const WAITING: Session :=
    QUEUED.(queue := [], inFlight := Some(InFlight(Reserve(CLASHING_REQUEST), Some(NOW), DECISION)))

  lemma BeginAppends(cfg: Config, x: Session, now: Option<string>, event: Event, recovered: set<string>)
    requires x.inFlight.None? && x.queue != [] && x.controller.Valid()
    requires Decide(cfg, x.controller, x.queue[0], now) == Append(event, recovered)
    ensures BeginStep(cfg, x, now)
            == Some(x.(queue := x.queue[1..], inFlight := Some(InFlight(x.queue[0], now, Append(event, recovered)))))
  {
  }

  lemma QueuedBegins()
    ensures BeginStep(OPEN_CONFIG, QUEUED, Some(NOW)) == Some(WAITING)
  {
    ClashingDecision(FRESH);
    assert QUEUED.queue[0] == Reserve(CLASHING_REQUEST) && QUEUED.queue[1..] == [];
    BeginAppends(OPEN_CONFIG, QUEUED, Some(NOW), BudgetReservation(CLASHING_RESERVATION), {});
  }

  lemma SessionBegins(cfg: Config, s: System, x: Session, now: Option<string>, x': Session)
    requires s.session == Some(x) && BeginStep(cfg, x, now) == Some(x')
    ensures Next(cfg, s, Begin(now)) == Some(s.(session := Some(x')))
  {
  }

  lemma CallBegins()
    ensures Next(OPEN_CONFIG, CALLED, Begin(Some(NOW))) == Some(CALLED.(session := Some(WAITING)))
  {
    QueuedBegins();
    SessionBegins(OPEN_CONFIG, CALLED, QUEUED, Some(NOW), WAITING);
  }

  const REUSED: System := System([OTHER, BudgetReservation(CLASHING_RESERVATION)], false, [0],
                                 Some(FinishStep(WAITING, Written)))

  lemma CallFinishes()
    ensures Next(OPEN_CONFIG, CALLED.(session := Some(WAITING)), Finish(Written)) == Some(REUSED)
  {
    assert [OTHER] + [BudgetReservation(CLASHING_RESERVATION)] == REUSED.log;
  }

  lemma ClashIsCalled()
    ensures Run(OPEN_CONFIG, CLASHING_RUN[..3]) == Some(CALLED)
  {
    ControllerStarts();
    OtherWrites();
    CallArrives();
    assert CLASHING_RUN[..0] == [];
    RunExtends(OPEN_CONFIG, CLASHING_RUN, 0, EMPTY, STARTED);
    RunExtends(OPEN_CONFIG, CLASHING_RUN, 1, STARTED, SHARED);
    RunExtends(OPEN_CONFIG, CLASHING_RUN, 2, SHARED, CALLED);
  }

  lemma ClashIsWaiting()
    ensures Run(OPEN_CONFIG, CLASHING_RUN[..4]) == Some(CALLED.(session := Some(WAITING)))
  {
    ClashIsCalled();
    CallBegins();
    RunExtends(OPEN_CONFIG, CLASHING_RUN, 3, CALLED, CALLED.(session := Some(WAITING)));
  }

  lemma ReusedIsNotReplayable()
    ensures !REUSED.torn && !Replayable(REUSED.log)
  {
    assert REUSED.log[0].Id() == REUSED.log[1].Id();
  }

  /**
   The controller looks for an event id only among the events it has seen, so an id that another
   component has used since start-up is accepted again, and the next start-up rejects the log.
   */
  lemma ReusedIdBlocksRestart()
    ensures Run(OPEN_CONFIG, CLASHING_RUN) == Some(REUSED)
    ensures !REUSED.torn && !Replayable(REUSED.log)
  {
    ClashIsWaiting();
    CallFinishes();
    assert CLASHING_RUN[..5] == CLASHING_RUN;
    RunExtends(OPEN_CONFIG, CLASHING_RUN, 4, CALLED.(session := Some(WAITING)), REUSED);
    ReusedIsNotReplayable();
  }
}
