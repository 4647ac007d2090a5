/**
 Whole runs of the budget controller: concurrent callers queue behind one transition at a time,
 other components append to the same ledger, appends fail, and the process crashes and restarts.
 */
module BudgetRuns {
  import opened Prelude
  import opened Money
  import opened Pricing
  import opened BudgetEvents
  import opened BudgetReplay
  import opened BudgetPolicy
  import opened BudgetControl
  import opened BudgetLimits

  // ---- The system ----

  datatype Op =
    | Reserve(reserve: ReserveRequest)
    | Settle(settle: SettleRequest)
    | Release(release: ReleaseRequest)
    | Quote(quote: QuoteRequest)

  ghost function Decide(cfg: Config, c: Controller, op: Op, now: Option<string>): Decision
    requires c.Valid()
  {
    match op
    case Reserve(q) => DecideReserve(cfg, c, q, now)
    case Settle(q) => DecideSettle(cfg, c, q, now)
    case Release(q) => DecideRelease(cfg, c, q, now)
    case Quote(q) => DecideQuote(cfg, c, q, now)
  }

  /** A transition that has decided what to append and is waiting for the storage. */
  datatype InFlight = InFlight(op: Op, now: Option<string>, decision: Decision)

  datatype Done = Done(op: Op, now: Option<string>, io: WriteOutcome, outcome: Result<Event, Failure>)

  /** One life of the process; `initial`, `called` and `done` record its history. */
  datatype Session = Session(
    initial: Controller, controller: Controller, called: seq<Op>, queue: seq<Op>,
    inFlight: Option<InFlight>, done: seq<Done>)

  /** `starts` records the length of the log at every start-up. */
  datatype System = System(log: seq<Event>, torn: bool, starts: seq<nat>, session: Option<Session>)

  const EMPTY: System := System([], false, [], None)

  datatype Step =
    | Start
    | Call(op: Op)
    | Begin(now: Option<string>)
    | Finish(io: WriteOutcome)
    | OtherAppends(event: Event, io: WriteOutcome)
    | Crash(io: WriteOutcome)

  predicate Distinct<T(==)>(xs: seq<T>) {
    forall i, j | 0 <= i < j < |xs| :: xs[i] != xs[j]
  }

  ghost function StartStep(s: System): Option<System> {
    if s.session.Some? || !MayStart(s.log, s.torn) then None
    else
      var c := StartedFrom(s.log);
      Some(s.(starts := s.starts + [|s.log|], session := Some(Session(c, c, [], [], None, []))))
  }

  /** The next queued transition runs up to its append, or all the way when it appends nothing. */
  ghost function BeginStep(cfg: Config, x: Session, now: Option<string>): Option<Session> {
    if x.inFlight.Some? || x.queue == [] || !x.controller.Valid() then None
    else
      var op, rest := x.queue[0], x.queue[1..];
      var decision := Decide(cfg, x.controller, op, now);
      if decision.Append? then Some(x.(queue := rest, inFlight := Some(InFlight(op, now, decision))))
      else Some(x.(queue := rest, done := x.done + [Done(op, now, Lost, OutcomeOf(decision, Lost))]))
  }

  function FinishStep(x: Session, io: WriteOutcome): Session
    requires x.inFlight.Some?
  {
    var f := x.inFlight.value;
    x.(controller := AfterAppend(x.controller, f.decision, io), inFlight := None,
       done := x.done + [Done(f.op, f.now, io, OutcomeOf(f.decision, io))])
  }

  /** The log after the append that is in flight, if there is one, ends with `io`. */
  function Settled(log: seq<Event>, f: Option<InFlight>, io: WriteOutcome): seq<Event> {
    if f.Some? && f.value.decision.Append? then LogAfter(log, f.value.decision.event, io) else log
  }

  ghost function Next(cfg: Config, s: System, step: Step): Option<System> {
    match step
    case Start => StartStep(s)
    case Call(op) =>
      if s.session.None? then None
      else
        var x := s.session.value;
        Some(s.(session := Some(x.(called := x.called + [op], queue := x.queue + [op]))))
    case Begin(now) =>
      if s.session.None? then None
      else
        (match BeginStep(cfg, s.session.value, now)
         case None => None
         case Some(x) => Some(s.(session := Some(x))))
    case Finish(io) =>
      if s.session.None? || s.session.value.inFlight.None? then None
      else Some(System(Settled(s.log, s.session.value.inFlight, io), s.torn || io.Torn?, s.starts,
                       Some(FinishStep(s.session.value, io))))
    case OtherAppends(event, io) =>
      if event.IsBudget() then None
      else Some(s.(log := LogAfter(s.log, event, io), torn := s.torn || io.Torn?))
    case Crash(io) =>
      if s.session.None? then None
      else Some(System(Settled(s.log, s.session.value.inFlight, io), s.torn || io.Torn?, s.starts, None))
  }

  ghost function Run(cfg: Config, steps: seq<Step>): Option<System> {
    if steps == [] then Some(EMPTY)
    else
      match Run(cfg, steps[..|steps| - 1])
      case None => None
      case Some(s) => Next(cfg, s, steps[|steps| - 1])
  }

  // ---- Other components' events do not matter ----

  function BudgetPart(log: seq<Event>): seq<Event> {
    if log == [] then []
    else BudgetPart(log[..|log| - 1]) + if log[|log| - 1].IsBudget() then [log[|log| - 1]] else []
  }

  lemma BudgetPartAppend(log: seq<Event>, event: Event)
    ensures BudgetPart(log + [event]) == BudgetPart(log) + if event.IsBudget() then [event] else []
  {
    assert (log + [event])[..|log|] == log;
  }

  lemma {:induction false} RecordsOfBudgetPart(log: seq<Event>)
    ensures Records(BudgetPart(log)) == Records(log)
  {
    if log != [] {
      var front, last := log[..|log| - 1], log[|log| - 1];
      RecordsOfBudgetPart(front);
      if last.IsBudget() {
        RecordsAppend(BudgetPart(front), last);
      } else {
        assert BudgetPart(log) == BudgetPart(front);
      }
    }
  }

  lemma SameBudgetPart(a: seq<Event>, b: seq<Event>)
    requires BudgetPart(a) == BudgetPart(b)
    ensures Records(a) == Records(b) && (Derivable(a) <==> Derivable(b))
  {
    RecordsOfBudgetPart(a);
    RecordsOfBudgetPart(b);
  }

  lemma {:induction false} BudgetEventsKept(log: seq<Event>, event: Event)
    requires event.IsBudget()
    ensures event in log <==> event in BudgetPart(log)
  {
    if log != [] {
      assert log == log[..|log| - 1] + [log[|log| - 1]];
      BudgetEventsKept(log[..|log| - 1], event);
    }
  }

  // ---- What a decision to append guarantees ----

  /** An event that may be appended: fresh ids, passed checks, and a derivable log afterwards. */
  ghost predicate Admissible(cfg: Config, c: Controller, d: Decision) {
    && c.Valid() && !c.storageFailed && d.Append?
    && Derivable(c.events + [d.event])
    && !UsesEventId(c.events, d.event.Id())
    && match d.event
       case BudgetReservation(r) =>
         && d.recovered == c.recovered
         && !UsesReservationId(c.events, r.reservationId)
         && (r.automatic ==> !Circuit(c.Records()) && Blocking(c.Records(), Some(c.recovered)) == {})
         && FirstFailing(LimitChecks(cfg, r, CandidateSum(c.Records(), r))).None?
       case BudgetSettlement(s) =>
         && d.recovered == c.recovered - {s.reservationId}
         && !UsesSettlementId(c.events, s.settlementId)
       case _ => false
  }

  lemma ReserveIsAdmissible(cfg: Config, c: Controller, q: ReserveRequest, now: Option<string>)
    requires c.Valid() && DecideReserve(cfg, c, q, now).Append?
    ensures Admissible(cfg, c, DecideReserve(cfg, c, q, now))
  {
    ReservationCarriesRequest(cfg, q, now);
  }

  lemma CloseIsAdmissible(
      cfg: Config, c: Controller, reservationId: string, eventId: string, settlementId: string, s: Settlement)
    requires c.Valid() && CloseRefusal(c, reservationId, eventId, settlementId).None?
    requires s.eventId == eventId && s.settlementId == settlementId
    requires Close(c, Ok(s)).Append?
    ensures Admissible(cfg, c, Close(c, Ok(s)))
  {
  }

  lemma DecisionsAreAdmissible(cfg: Config, c: Controller, op: Op, now: Option<string>)
    requires c.Valid() && Decide(cfg, c, op, now).Append?
    ensures Admissible(cfg, c, Decide(cfg, c, op, now))
  {
    match op
    case Reserve(q) => ReserveIsAdmissible(cfg, c, q, now);
    case Settle(q) =>
      var s := SettlementFor(cfg, Active(c, q.reservationId), q, now).value;
      CloseIsAdmissible(cfg, c, q.reservationId, q.eventId, q.settlementId, s);
    case Release(q) =>
      var s := ReleaseFor(cfg, Active(c, q.reservationId), q, now).value;
      CloseIsAdmissible(cfg, c, q.reservationId, q.eventId, q.settlementId, s);
  }

  /** After a storage failure nothing is accepted any more. */
  lemma StorageFailureIsFinal(cfg: Config, c: Controller, op: Op, now: Option<string>)
    requires c.Valid() && c.storageFailed
    ensures Decide(cfg, c, op, now).Refuse?
  {
  }

  // ---- Properties of a log ----

  predicate IsAutomatic(event: Event) {
    event.BudgetReservation? && event.reservation.automatic
  }

  predicate IsOverrun(event: Event) {
    event.BudgetSettlement? && event.settlement.overrun
  }

  /** The discrepancy circuit: no automatic reservation follows an overrun settlement. */
  predicate CircuitHolds(log: seq<Event>) {
    forall i, j | 0 <= i < j < |log| :: IsOverrun(log[i]) ==> !IsAutomatic(log[j])
  }

  /** The reservations that are active in the first `n` events. */
  function ActiveBy(log: seq<Event>, n: nat): set<string> {
    if n <= |log| && Records(log[..n]).Some? then ActiveIds(Records(log[..n]).value) else {}
  }

  /**
   Recovery: an automatic reservation after a start-up is written only when nothing that was
   active at that start-up is still active.
   */
  predicate RecoveryHolds(log: seq<Event>, starts: seq<nat>) {
    forall k, j | 0 <= k < |starts| && starts[k] <= j < |log| && IsAutomatic(log[j]) ::
      ActiveBy(log, starts[k]) * ActiveBy(log, j) == {}
  }

  predicate SettlementIdsDistinct(log: seq<Event>) {
    forall i, j | 0 <= i < j < |log| && log[i].BudgetSettlement? && log[j].BudgetSettlement? ::
      log[i].settlement.settlementId != log[j].settlement.settlementId
  }

  predicate ReservationIdsDistinct(log: seq<Event>) {
    forall i, j | 0 <= i < j < |log| && log[i].BudgetReservation? && log[j].BudgetReservation? ::
      log[i].reservation.reservationId != log[j].reservation.reservationId
  }

  predicate BudgetEventIdsDistinct(log: seq<Event>) {
    forall i, j | 0 <= i < j < |log| && log[i].IsBudget() && log[j].IsBudget() :: log[i].Id() != log[j].Id()
  }

  ghost predicate LogSafe(cfg: Config, log: seq<Event>, starts: seq<nat>) {
    && Derivable(log)
    && CleanScopes(Records(log).value)
    && WithinLimits(cfg, Records(log).value)
    && CircuitHolds(log)
    && (forall k | 0 <= k < |starts| :: starts[k] <= |log|)
    && RecoveryHolds(log, starts)
    && SettlementIdsDistinct(log) && ReservationIdsDistinct(log) && BudgetEventIdsDistinct(log)
  }

  /** The recovered ids of a live controller cover whatever a start-up found and is still active. */
  predicate Covered(log: seq<Event>, starts: seq<nat>, recovered: set<string>) {
    forall k | 0 <= k < |starts| :: ActiveBy(log, starts[k]) * ActiveBy(log, |log|) <= recovered
  }

  lemma {:induction false} CircuitIsOverrunInLog(log: seq<Event>)
    requires Records(log).Some?
    ensures Circuit(Records(log).value) <==> exists i :: 0 <= i < |log| && IsOverrun(log[i])
  {
    if log != [] {
      var front, last := log[..|log| - 1], log[|log| - 1];
      CircuitIsOverrunInLog(front);
      CircuitStep(Records(front).value, last);
      assert forall i | 0 <= i < |front| :: front[i] == log[i];
    }
  }

  /** A reservation id that was ever recorded stays known. */
  lemma {:induction false} KnownForever(log: seq<Event>, n: nat, id: string)
    requires n <= |log| && Records(log).Some? && id in ActiveBy(log, n)
    ensures Knows(Records(log).value, id)
  {
    if n == |log| {
      assert log[..n] == log;
      var i :| 0 <= i < |Records(log).value| && Records(log).value[i].reservation.reservationId == id;
    } else {
      var front := log[..|log| - 1];
      assert front[..n] == log[..n];
      KnownForever(front, n, id);
      var before, after := Records(front).value, Records(log).value;
      var i := Find(before, id);
      assert after[i].reservation.reservationId == id;
    }
  }

  lemma ActiveByExtended(log: seq<Event>, event: Event, n: nat)
    requires n <= |log|
    ensures ActiveBy(log + [event], n) == ActiveBy(log, n)
  {
    assert (log + [event])[..n] == log[..n];
  }

  lemma OtherEventKeepsLogSafe(cfg: Config, log: seq<Event>, starts: seq<nat>, event: Event)
    requires LogSafe(cfg, log, starts) && !event.IsBudget()
    ensures LogSafe(cfg, log + [event], starts)
    ensures BudgetPart(log + [event]) == BudgetPart(log)
    ensures forall recovered | Covered(log, starts, recovered) :: Covered(log + [event], starts, recovered)
  {
    BudgetPartAppend(log, event);
    SameBudgetPart(log, log + [event]);
    forall n: nat | n <= |log|
      ensures ActiveBy(log + [event], n) == ActiveBy(log, n)
    {
      ActiveByExtended(log, event, n);
    }
    assert (log + [event])[..|log| + 1] == log + [event];
    assert log[..|log|] == log;
  }

  // ---- The invariant ----

  /** A live controller's view of the log; after a storage failure it promises nothing any more. */
  ghost predicate InStep(cfg: Config, log: seq<Event>, starts: seq<nat>, x: Session) {
    && x.controller.Valid()
    && (!x.controller.storageFailed ==>
          && BudgetPart(x.controller.events) == BudgetPart(log)
          && Covered(log, starts, x.controller.recovered))
    && (x.inFlight.Some? ==>
          var f := x.inFlight.value;
          f.decision == Decide(cfg, x.controller, f.op, f.now) && f.decision.Append?)
  }

  ghost predicate Inv(cfg: Config, s: System) {
    && LogSafe(cfg, s.log, s.starts)
    && (s.session.Some? ==> InStep(cfg, s.log, s.starts, s.session.value))
  }

  /** A controller that is in step with the log, and what it has decided to append. */
  ghost predicate Deciding(cfg: Config, log: seq<Event>, starts: seq<nat>, c: Controller, d: Decision) {
    && LogSafe(cfg, log, starts)
    && BudgetPart(c.events) == BudgetPart(log) && Covered(log, starts, c.recovered)
    && Admissible(cfg, c, d)
  }

  lemma AppendKeepsDerivable(cfg: Config, log: seq<Event>, starts: seq<nat>, c: Controller, d: Decision)
    requires Deciding(cfg, log, starts, c, d)
    ensures var log' := log + [d.event];
            Derivable(log') && BudgetPart(log') == BudgetPart(Commit(c, d).events)
  {
    var event := d.event;
    BudgetPartAppend(log, event);
    BudgetPartAppend(c.events, event);
    SameBudgetPart(log + [event], c.events + [event]);
  }

  /** The appended reservation passed its checks against the records of the log. */
  lemma ReservationFits(cfg: Config, log: seq<Event>, starts: seq<nat>, c: Controller, d: Decision)
    requires Deciding(cfg, log, starts, c, d) && d.event.BudgetReservation?
    ensures Records(log) == Records(c.events) && Records(log).Some?
    ensures FirstFailing(LimitChecks(cfg, d.event.reservation,
                                     CandidateSum(Records(log).value, d.event.reservation))).None?
  {
    SameBudgetPart(log, c.events);
  }

  /** The record of a reservation that the replay accepts is valid, and the last of the records. */
  lemma ReservationIsRecorded(log: seq<Event>, r: Reservation)
    requires Derivable(log + [BudgetReservation(r)])
    ensures Records(log).Some? && Records(log + [BudgetReservation(r)]).Some?
    ensures Records(log + [BudgetReservation(r)]).value == Records(log).value + [Record(r, None)]
    ensures ValidReservation(r) && !Delimited(r)
  {
    RecordsAppend(log, BudgetReservation(r));
    var records := Records(log).value + [Record(r, None)];
    assert records[|records| - 1] == Record(r, None);
  }

  lemma ScopesStayClean(records: seq<Record>, r: Reservation)
    requires CleanScopes(records) && !Delimited(r)
    ensures CleanScopes(records + [Record(r, None)])
  {
  }

  lemma NextReservationKeepsLimits(cfg: Config, log: seq<Event>, starts: seq<nat>, c: Controller, d: Decision)
    requires Deciding(cfg, log, starts, c, d) && d.event.BudgetReservation? && Derivable(log + [d.event])
    ensures var records' := Records(log + [d.event]).value;
            WithinLimits(cfg, records') && CleanScopes(records')
  {
    var r := d.event.reservation;
    ReservationIsRecorded(log, r);
    ReservationFits(cfg, log, starts, c, d);
    ReserveKeepsLimits(cfg, Records(log).value, r);
    ScopesStayClean(Records(log).value, r);
  }

  lemma NextSettlementKeepsLimits(cfg: Config, log: seq<Event>, starts: seq<nat>, event: Event)
    requires LogSafe(cfg, log, starts) && event.BudgetSettlement? && Derivable(log + [event])
    ensures var records' := Records(log + [event]).value;
            WithinLimits(cfg, records') && CleanScopes(records')
  {
    RecordsAppend(log, event);
    CloseKeepsLimits(cfg, Records(log).value, event.settlement);
  }

  lemma AppendKeepsLimits(cfg: Config, log: seq<Event>, starts: seq<nat>, c: Controller, d: Decision)
    requires Deciding(cfg, log, starts, c, d)
    requires Derivable(log + [d.event])
    ensures var records' := Records(log + [d.event]).value;
            WithinLimits(cfg, records') && CleanScopes(records')
  {
    if d.event.BudgetReservation? {
      NextReservationKeepsLimits(cfg, log, starts, c, d);
    } else {
      NextSettlementKeepsLimits(cfg, log, starts, d.event);
    }
  }

  lemma AppendKeepsCircuit(cfg: Config, log: seq<Event>, starts: seq<nat>, c: Controller, d: Decision)
    requires Deciding(cfg, log, starts, c, d)
    ensures CircuitHolds(log + [d.event])
  {
    SameBudgetPart(log, c.events);
    CircuitIsOverrunInLog(log);
  }

  lemma AppendKeepsCovered(cfg: Config, log: seq<Event>, starts: seq<nat>, c: Controller, d: Decision)
    requires Deciding(cfg, log, starts, c, d)
    requires Records(log + [d.event]).Some?
    ensures Covered(log + [d.event], starts, d.recovered)
  {
    var log' := log + [d.event];
    RecordsAppend(log, d.event);
    RecordsWellFormed(log);
    assert log[..|log|] == log && log'[..|log'|] == log';
    forall k, id | 0 <= k < |starts| && id in ActiveBy(log', starts[k]) && id in ActiveBy(log', |log'|)
      ensures id in d.recovered
    {
      ActiveByExtended(log, d.event, starts[k]);
      KnownForever(log, starts[k], id);
      ActiveStays(Records(log).value, d.event, id);
      assert id in ActiveBy(log, starts[k]) * ActiveBy(log, |log|);
    }
  }

  /** With nothing recovered left active, nothing found at an earlier start-up is active. */
  lemma NothingLeftOver(log: seq<Event>, starts: seq<nat>, recovered: set<string>, k: nat)
    requires Records(log).Some? && Covered(log, starts, recovered) && k < |starts|
    requires Blocking(Records(log).value, Some(recovered)) == {}
    ensures ActiveBy(log, starts[k]) * ActiveBy(log, |log|) == {}
  {
    assert log[..|log|] == log;
    var early, late := ActiveBy(log, starts[k]), ActiveIds(Records(log).value);
    assert early * late <= recovered;
    assert early * late <= late * recovered;
  }

  lemma AutomaticAfterRecovery(cfg: Config, log: seq<Event>, starts: seq<nat>, c: Controller, d: Decision)
    requires Deciding(cfg, log, starts, c, d) && IsAutomatic(d.event)
    ensures Records(log).Some? && Covered(log, starts, c.recovered)
    ensures Blocking(Records(log).value, Some(c.recovered)) == {}
  {
    SameBudgetPart(log, c.events);
  }

  lemma AppendKeepsRecovery(cfg: Config, log: seq<Event>, starts: seq<nat>, c: Controller, d: Decision)
    requires Deciding(cfg, log, starts, c, d)
    ensures RecoveryHolds(log + [d.event], starts)
  {
    var log' := log + [d.event];
    forall k, j | 0 <= k < |starts| && starts[k] <= j < |log'| && IsAutomatic(log'[j])
      ensures ActiveBy(log', starts[k]) * ActiveBy(log', j) == {}
    {
      ActiveByExtended(log, d.event, starts[k]);
      ActiveByExtended(log, d.event, j);
      if j < |log| {
        assert log'[j] == log[j];
      } else {
        AutomaticAfterRecovery(cfg, log, starts, c, d);
        NothingLeftOver(log, starts, c.recovered, k);
      }
    }
  }

  /** A known id that is active after an event was active before it and is not the one being closed. */
  lemma ActiveStays(records: seq<Record>, event: Event, id: string)
    requires Replay(records, event).Some? && Knows(records, id) && DistinctIds(records)
    requires id in ActiveIds(Replay(records, event).value)
    ensures id in ActiveIds(records)
    ensures event.BudgetSettlement? ==> id != event.settlement.reservationId
  {
    var records' := Replay(records, event).value;
    var i :| 0 <= i < |records'| && records'[i].IsActive() && records'[i].reservation.reservationId == id;
    var j := Find(records, id);
    if event.BudgetReservation? {
      assert records'[j] == records[j];
      assert records'[|records|].reservation.reservationId == event.reservation.reservationId;
      assert i < |records|;
    }
  }

  lemma LoggedAreSeen(cfg: Config, log: seq<Event>, starts: seq<nat>, c: Controller, d: Decision)
    requires Deciding(cfg, log, starts, c, d)
    ensures forall i | 0 <= i < |log| && log[i].IsBudget() :: log[i] in c.events
  {
    forall i | 0 <= i < |log| && log[i].IsBudget()
      ensures log[i] in c.events
    {
      BudgetEventsKept(log, log[i]);
      BudgetEventsKept(c.events, log[i]);
    }
  }

  lemma AppendKeepsRecordIds(cfg: Config, log: seq<Event>, starts: seq<nat>, c: Controller, d: Decision)
    requires Deciding(cfg, log, starts, c, d)
    ensures SettlementIdsDistinct(log + [d.event]) && ReservationIdsDistinct(log + [d.event])
  {
    LoggedAreSeen(cfg, log, starts, c, d);
  }

  lemma AppendKeepsIds(cfg: Config, log: seq<Event>, starts: seq<nat>, c: Controller, d: Decision)
    requires Deciding(cfg, log, starts, c, d)
    ensures var log' := log + [d.event];
            SettlementIdsDistinct(log') && ReservationIdsDistinct(log') && BudgetEventIdsDistinct(log')
  {
    AppendKeepsRecordIds(cfg, log, starts, c, d);
    LoggedAreSeen(cfg, log, starts, c, d);
  }

  lemma AppendKeepsLogSafe(cfg: Config, log: seq<Event>, starts: seq<nat>, c: Controller, d: Decision)
    requires Deciding(cfg, log, starts, c, d)
    ensures LogSafe(cfg, log + [d.event], starts)
    ensures BudgetPart(log + [d.event]) == BudgetPart(Commit(c, d).events)
    ensures Covered(log + [d.event], starts, d.recovered)
  {
    AppendKeepsDerivable(cfg, log, starts, c, d);
    AppendKeepsLimits(cfg, log, starts, c, d);
    AppendKeepsCircuit(cfg, log, starts, c, d);
    AppendKeepsRecovery(cfg, log, starts, c, d);
    AppendKeepsCovered(cfg, log, starts, c, d);
    AppendKeepsIds(cfg, log, starts, c, d);
  }

  // ---- Every step keeps the invariant ----

  lemma StartKeepsInv(cfg: Config, s: System)
    requires Inv(cfg, s) && StartStep(s).Some?
    ensures Inv(cfg, StartStep(s).value)
  {
    assert s.log[..|s.log|] == s.log;
  }

  lemma BeginKeepsInv(cfg: Config, s: System, now: Option<string>)
    requires Inv(cfg, s) && s.session.Some? && BeginStep(cfg, s.session.value, now).Some?
    ensures InStep(cfg, s.log, s.starts, BeginStep(cfg, s.session.value, now).value)
  {
  }

  /** However the append in flight ends, the log stays safe. */
  lemma SettledLogIsSafe(cfg: Config, s: System, io: WriteOutcome)
    requires Inv(cfg, s) && s.session.Some?
    ensures LogSafe(cfg, Settled(s.log, s.session.value.inFlight, io), s.starts)
  {
    var x := s.session.value;
    var log' := Settled(s.log, x.inFlight, io);
    if x.inFlight.Some? && (io.Written? || io.WrittenButFailed?) {
      var f := x.inFlight.value;
      assert log' == s.log + [f.decision.event];
      DecisionsAreAdmissible(cfg, x.controller, f.op, f.now);
      AppendKeepsLogSafe(cfg, s.log, s.starts, x.controller, f.decision);
    } else {
      assert log' == s.log;
    }
  }

  lemma InFlightIsDeciding(cfg: Config, s: System)
    requires Inv(cfg, s) && s.session.Some? && s.session.value.inFlight.Some?
    ensures var x := s.session.value; Deciding(cfg, s.log, s.starts, x.controller, x.inFlight.value.decision)
  {
    var x := s.session.value;
    DecisionsAreAdmissible(cfg, x.controller, x.inFlight.value.op, x.inFlight.value.now);
  }

  /** What an append leaves of log and controller, whatever became of the write. */
  lemma SettlingKeepsStep(
      cfg: Config, log: seq<Event>, starts: seq<nat>, x: Session, d: Decision, io: WriteOutcome, x': Session)
    requires Deciding(cfg, log, starts, x.controller, d)
    requires x'.controller == AfterAppend(x.controller, d, io) && x'.inFlight.None?
    ensures LogSafe(cfg, LogAfter(log, d.event, io), starts) && InStep(cfg, LogAfter(log, d.event, io), starts, x')
  {
    AppendKeepsLogSafe(cfg, log, starts, x.controller, d);
  }

  lemma FinishKeepsInv(cfg: Config, s: System, io: WriteOutcome)
    requires Inv(cfg, s) && s.session.Some? && s.session.value.inFlight.Some?
    ensures InStep(cfg, Settled(s.log, s.session.value.inFlight, io), s.starts, FinishStep(s.session.value, io))
  {
    var x := s.session.value;
    InFlightIsDeciding(cfg, s);
    SettlingKeepsStep(cfg, s.log, s.starts, x, x.inFlight.value.decision, io, FinishStep(x, io));
  }

  lemma NextKeepsInv(cfg: Config, s: System, step: Step)
    requires Inv(cfg, s) && Next(cfg, s, step).Some?
    ensures Inv(cfg, Next(cfg, s, step).value)
  {
    match step
    case Start => StartKeepsInv(cfg, s);
    case Call(op) =>
    case Begin(now) => BeginKeepsInv(cfg, s, now);
    case Finish(io) =>
      SettledLogIsSafe(cfg, s, io);
      FinishKeepsInv(cfg, s, io);
    case OtherAppends(event, io) => OtherEventKeepsLogSafe(cfg, s.log, s.starts, event);
    case Crash(io) => SettledLogIsSafe(cfg, s, io);
  }

  lemma EmptyIsSafe(cfg: Config)
    ensures Inv(cfg, EMPTY)
  {
  }

  /** Every system that a run reaches, with any interleaving, failures and restarts, is safe. */
  lemma {:induction false} EveryRunIsSafe(cfg: Config, steps: seq<Step>)
    requires Run(cfg, steps).Some?
    ensures Inv(cfg, Run(cfg, steps).value)
  {
    if steps == [] {
      EmptyIsSafe(cfg);
    } else {
      EveryRunIsSafe(cfg, steps[..|steps| - 1]);
      NextKeepsInv(cfg, Run(cfg, steps[..|steps| - 1]).value, steps[|steps| - 1]);
    }
  }

  // ---- What that means ----

  /**
   Limit safety over all runs: in the scope of any reservation that was ever written, every limited
   total is at most its limit plus the overruns settled in that scope, and at most its limit when
   no settlement has overrun.
   */
  lemma LimitSafety(cfg: Config, steps: seq<Step>, i: nat, family: Family, meter: Meter)
    requires Run(cfg, steps).Some?
    requires i < |Run(cfg, steps).value.log| && Run(cfg, steps).value.log[i].BudgetReservation?
    requires CapOf(cfg, family, Run(cfg, steps).value.log[i].reservation.provider, meter).Some?
    ensures var log := Run(cfg, steps).value.log;
            Records(log).Some? &&
            var records, r := Records(log).value, log[i].reservation;
            var total, cap := Sum(records, KeyIn(r, family), meter), CapOf(cfg, family, r.provider, meter).value;
            total <= cap + Excess(records, KeyIn(r, family), meter)
            && ((forall j | 0 <= j < |log| :: !IsOverrun(log[j])) ==> total <= cap)
  {
    EveryRunIsSafe(cfg, steps);
    var log := Run(cfg, steps).value.log;
    var records, r := Records(log).value, log[i].reservation;
    RecordedReservation(log, i);
    assert WithinAt(cfg, records, r, family, meter);
    CircuitIsOverrunInLog(log);
    if !Circuit(records) {
      NoOverrunNoExcess(records, KeyIn(r, family), meter);
    }
  }

  /** In every log a run leaves behind, no automatic reservation follows an overrun settlement. */
  lemma CircuitSafety(cfg: Config, steps: seq<Step>, i: nat, j: nat)
    requires Run(cfg, steps).Some? && i < j < |Run(cfg, steps).value.log|
    requires IsOverrun(Run(cfg, steps).value.log[i])
    ensures !IsAutomatic(Run(cfg, steps).value.log[j])
  {
    EveryRunIsSafe(cfg, steps);
  }

  /**
   A reservation that is active at a start-up is settled or released before any automatic reservation is
   written in that life of the process or a later one.
   */
  lemma RecoverySafety(cfg: Config, steps: seq<Step>, s: System, k: nat, j: nat, id: string)
    requires Run(cfg, steps) == Some(s) && k < |s.starts| && s.starts[k] <= j < |s.log|
    requires IsAutomatic(s.log[j]) && id in ActiveBy(s.log, s.starts[k])
    ensures id !in ActiveBy(s.log, j)
  {
    EveryRunIsSafe(cfg, steps);
    NoneLeftActive(s.log, s.starts, k, j, id);
  }

  lemma NoneLeftActive(log: seq<Event>, starts: seq<nat>, k: nat, j: nat, id: string)
    requires RecoveryHolds(log, starts) && k < |starts| && starts[k] <= j < |log| && IsAutomatic(log[j])
    requires id in ActiveBy(log, starts[k])
    ensures id !in ActiveBy(log, j)
  {
    assert id !in ActiveBy(log, starts[k]) * ActiveBy(log, j);
  }

  lemma {:induction false} RecordedReservation(log: seq<Event>, i: nat)
    requires Records(log).Some? && i < |log| && log[i].BudgetReservation?
    ensures exists k :: 0 <= k < |Records(log).value| && Records(log).value[k].reservation == log[i].reservation
  {
    var front, last := log[..|log| - 1], log[|log| - 1];
    var before, after := Records(front).value, Records(log).value;
    if i == |front| {
      assert after[|before|].reservation == log[i].reservation;
    } else {
      RecordedReservation(front, i);
      var k :| 0 <= k < |before| && before[k].reservation == log[i].reservation;
      assert after[k].reservation == log[i].reservation;
    }
  }

  /** Other components keep their event ids apart from all others, and their approval ids distinct. */
  predicate OtherIdsDistinct(log: seq<Event>) {
    && (forall i, j | 0 <= i < j < |log| && !(log[i].IsBudget() && log[j].IsBudget()) :: log[i].Id() != log[j].Id())
    && (forall i, j | 0 <= i < j < |log| && log[i].ApprovalEvent? && log[j].ApprovalEvent? ::
          log[i].approvalId != log[j].approvalId)
  }

  /**
   Every log that a run leaves behind derives a budget state, and the ledger's replay accepts it
   exactly when no other component reused an id; so a restart then succeeds unless a record is torn.
   */
  lemma RestartIsAccepted(cfg: Config, steps: seq<Step>)
    requires Run(cfg, steps).Some?
    ensures var s := Run(cfg, steps).value;
            && Derivable(s.log)
            && (Replayable(s.log) <==> OtherIdsDistinct(s.log))
            && (s.session.None? && !s.torn && OtherIdsDistinct(s.log) ==> Next(cfg, s, Start).Some?)
  {
    EveryRunIsSafe(cfg, steps);
  }

  // ---- What keeps the log replayable ----

  /** The event that a step adds to the log. */
  function Added(s: System, step: Step): Option<Event> {
    match step
    case OtherAppends(event, io) => if io.Written? || io.WrittenButFailed? then Some(event) else None
    case Finish(io) => AddedInFlight(s, io)
    case Crash(io) => AddedInFlight(s, io)
    case _ => None
  }

  function AddedInFlight(s: System, io: WriteOutcome): Option<Event> {
    if (io.Written? || io.WrittenButFailed?) && s.session.Some? && s.session.value.inFlight.Some?
       && s.session.value.inFlight.value.decision.Append?
    then Some(s.session.value.inFlight.value.decision.event) else None
  }

  /** The identifier of the event is new to the log, and so is that of an approval. */
  predicate IsNew(log: seq<Event>, event: Event) {
    forall i | 0 <= i < |log| ::
      log[i].Id() != event.Id()
        && (log[i].ApprovalEvent? && event.ApprovalEvent? ==> log[i].approvalId != event.approvalId)
  }

  /** Whenever an event is added, its identifiers are new. */
  ghost predicate AddsNewOnly(cfg: Config, steps: seq<Step>)
    requires Run(cfg, steps).Some?
  {
    steps == []
    || (var front, last := steps[..|steps| - 1], steps[|steps| - 1];
        var s := Run(cfg, front).value;
        AddsNewOnly(cfg, front) && (Added(s, last).Some? ==> IsNew(s.log, Added(s, last).value)))
  }

  lemma StepAdds(cfg: Config, s: System, step: Step)
    requires Inv(cfg, s) && Next(cfg, s, step).Some?
    ensures Next(cfg, s, step).value.log
            == match Added(s, step) case None => s.log case Some(event) => s.log + [event]
  {
  }

  lemma OthersStayDistinct(log: seq<Event>, event: Event)
    requires OtherIdsDistinct(log) && IsNew(log, event)
    ensures OtherIdsDistinct(log + [event])
  {
  }

  lemma ReplayableAddsNew(log: seq<Event>, event: Event)
    requires Replayable(log + [event])
    ensures Replayable(log) && IsNew(log, event)
  {
    var all := log + [event];
    assert all[|log|] == event && forall i | 0 <= i < |log| :: all[i] == log[i];
  }

  /**
   The log stays replayable exactly as long as every event that is added, by whatever component, has an identifier
   that is new to the whole log.
   */
  lemma {:induction false} ReplayableIffAddsNew(cfg: Config, steps: seq<Step>)
    requires Run(cfg, steps).Some?
    ensures Replayable(Run(cfg, steps).value.log) <==> AddsNewOnly(cfg, steps)
  {
    if steps != [] {
      var front, last := steps[..|steps| - 1], steps[|steps| - 1];
      var s := Run(cfg, front).value;
      ReplayableIffAddsNew(cfg, front);
      EveryRunIsSafe(cfg, front);
      StepAdds(cfg, s, last);
      RestartIsAccepted(cfg, front);
      RestartIsAccepted(cfg, steps);
      if Added(s, last).Some? {
        var event := Added(s, last).value;
        if Replayable(s.log) && IsNew(s.log, event) {
          OthersStayDistinct(s.log, event);
        }
        if Replayable(s.log + [event]) {
          ReplayableAddsNew(s.log, event);
        }
      }
    }
  }

  /**
   While no append has failed, whatever state describes the controller's own events also describes
   the durable log, although other components have appended in between.
   */
  lemma MemoryMatchesLog(cfg: Config, steps: seq<Step>, state: BudgetState)
    requires Run(cfg, steps).Some? && Run(cfg, steps).value.session.Some?
    requires var c := Run(cfg, steps).value.session.value.controller;
             !c.storageFailed && Records(c.events).Some?
             && Describes(state, Records(c.events).value, Some(c.recovered))
    ensures var s := Run(cfg, steps).value;
            Derivable(s.log)
            && Describes(state, Records(s.log).value, Some(s.session.value.controller.recovered))
  {
    EveryRunIsSafe(cfg, steps);
    var s := Run(cfg, steps).value;
    SameBudgetPart(s.session.value.controller.events, s.log);
  }

  // ---- Serialization ----

  /** The controller after the finished transitions, run one after the other. */
  ghost function After(cfg: Config, c: Controller, done: seq<Done>): (r: Controller)
    requires c.Valid()
    ensures r.Valid()
  {
    if done == [] then c
    else
      var previous, last := After(cfg, c, done[..|done| - 1]), done[|done| - 1];
      var d := Decide(cfg, previous, last.op, last.now);
      assert d.Append? ==> Commit(previous, d).Valid() by {
        if d.Append? { DecisionsAreAdmissible(cfg, previous, last.op, last.now); }
      }
      AfterAppend(previous, d, last.io)
  }

  /** What has been called and is not finished, in order. */
  function Waiting(x: Session): seq<Op> {
    if x.inFlight.Some? then [x.inFlight.value.op] + x.queue else x.queue
  }

  /** The calls are the finished ones and then the waiting ones. */
  ghost predicate InCallOrder(x: Session) {
    Accounted(x.called, x.done, Waiting(x))
  }

  predicate Accounted(called: seq<Op>, done: seq<Done>, waiting: seq<Op>) {
    && |called| == |done| + |waiting|
    && (forall k | 0 <= k < |done| :: called[k] == done[k].op)
    && (forall k | |done| <= k < |called| :: called[k] == waiting[k - |done|])
  }

  /** Outcomes and controller are those of a sequential run of the calls in the order they were made. */
  ghost predicate Serial(cfg: Config, x: Session) {
    && x.initial.Valid()
    && x.controller == After(cfg, x.initial, x.done)
    && (forall k | 0 <= k < |x.done| :: OutcomeIsSequential(cfg, x.initial, x.done, k))
    && InCallOrder(x)
    && (x.inFlight.Some? ==>
          x.inFlight.value.decision == Decide(cfg, x.controller, x.inFlight.value.op, x.inFlight.value.now))
  }

  ghost predicate OutcomeIsSequential(cfg: Config, c: Controller, done: seq<Done>, k: nat)
    requires c.Valid() && k < |done|
  {
    done[k].outcome == OutcomeOf(Decide(cfg, After(cfg, c, done[..k]), done[k].op, done[k].now), done[k].io)
  }

  lemma DoneKeepsSerial(cfg: Config, x: Session, last: Done)
    requires x.initial.Valid() && x.controller == After(cfg, x.initial, x.done)
    requires forall k | 0 <= k < |x.done| :: OutcomeIsSequential(cfg, x.initial, x.done, k)
    requires last.outcome == OutcomeOf(Decide(cfg, x.controller, last.op, last.now), last.io)
    ensures After(cfg, x.initial, x.done + [last])
            == AfterAppend(x.controller, Decide(cfg, x.controller, last.op, last.now), last.io)
    ensures forall k | 0 <= k < |x.done| + 1 :: OutcomeIsSequential(cfg, x.initial, x.done + [last], k)
  {
    var done' := x.done + [last];
    assert done'[..|x.done|] == x.done;
    forall k | 0 <= k < |done'|
      ensures OutcomeIsSequential(cfg, x.initial, done', k)
    {
      if k < |x.done| {
        assert OutcomeIsSequential(cfg, x.initial, x.done, k);
        assert done'[..k] == x.done[..k];
      }
    }
  }

  lemma ReplyKeepsOrder(x: Session, last: Done)
    requires InCallOrder(x) && x.inFlight.None? && x.queue != [] && last.op == x.queue[0]
    ensures InCallOrder(x.(queue := x.queue[1..], done := x.done + [last]))
  {
    assert x.called[|x.done|] == Waiting(x)[0];
  }

  lemma FinishKeepsOrder(x: Session, controller: Controller, last: Done)
    requires InCallOrder(x) && x.inFlight.Some? && last.op == x.inFlight.value.op
    ensures InCallOrder(x.(controller := controller, inFlight := None, done := x.done + [last]))
  {
    assert x.called[|x.done|] == Waiting(x)[0];
  }

  lemma BeginKeepsOrder(x: Session, f: InFlight)
    requires InCallOrder(x) && x.inFlight.None? && x.queue != [] && f.op == x.queue[0]
    ensures InCallOrder(x.(queue := x.queue[1..], inFlight := Some(f)))
  {
    assert Waiting(x.(queue := x.queue[1..], inFlight := Some(f))) == x.queue;
  }

  lemma CallKeepsOrder(x: Session, op: Op)
    requires InCallOrder(x)
    ensures InCallOrder(x.(called := x.called + [op], queue := x.queue + [op]))
  {
  }

  lemma ReplyKeepsSerial(cfg: Config, x: Session, now: Option<string>, d: Decision)
    requires Serial(cfg, x) && x.inFlight.None? && x.queue != []
    requires Decide(cfg, x.controller, x.queue[0], now) == d && !d.Append?
    ensures Serial(cfg, x.(queue := x.queue[1..], done := x.done + [Done(x.queue[0], now, Lost, OutcomeOf(d, Lost))]))
  {
    ReplyKeepsOrder(x, Done(x.queue[0], now, Lost, OutcomeOf(d, Lost)));
    DoneKeepsSerial(cfg, x, Done(x.queue[0], now, Lost, OutcomeOf(d, Lost)));
  }

  lemma AppendKeepsSerial(cfg: Config, x: Session, now: Option<string>, d: Decision)
    requires Serial(cfg, x) && x.inFlight.None? && x.queue != [] && Decide(cfg, x.controller, x.queue[0], now) == d
    ensures Serial(cfg, x.(queue := x.queue[1..], inFlight := Some(InFlight(x.queue[0], now, d))))
  {
    BeginKeepsOrder(x, InFlight(x.queue[0], now, d));
  }

  lemma BeginKeepsSerial(cfg: Config, x: Session, now: Option<string>)
    requires Serial(cfg, x) && BeginStep(cfg, x, now).Some?
    ensures Serial(cfg, BeginStep(cfg, x, now).value)
  {
    var d := Decide(cfg, x.controller, x.queue[0], now);
    if d.Append? {
      AppendKeepsSerial(cfg, x, now, d);
    } else {
      ReplyKeepsSerial(cfg, x, now, d);
    }
  }

  lemma FinishKeepsSerial(cfg: Config, x: Session, io: WriteOutcome)
    requires Serial(cfg, x) && x.inFlight.Some?
    ensures Serial(cfg, FinishStep(x, io))
  {
    var f := x.inFlight.value;
    var last := Done(f.op, f.now, io, OutcomeOf(f.decision, io));
    DoneKeepsSerial(cfg, x, last);
    FinishKeepsOrder(x, AfterAppend(x.controller, f.decision, io), last);
  }

  lemma NextKeepsSerial(cfg: Config, s: System, step: Step)
    requires s.session.Some? ==> Serial(cfg, s.session.value)
    requires Next(cfg, s, step).Some?
    ensures Next(cfg, s, step).value.session.Some? ==> Serial(cfg, Next(cfg, s, step).value.session.value)
  {
    match step
    case Call(op) => if s.session.Some? { CallKeepsOrder(s.session.value, op); }
    case Begin(now) => BeginKeepsSerial(cfg, s.session.value, now);
    case Finish(io) => FinishKeepsSerial(cfg, s.session.value, io);
    case _ =>
  }

  /** Concurrent callers see the outcomes of a sequential run in call order. */
  lemma {:induction false} EveryRunIsSerial(cfg: Config, steps: seq<Step>)
    requires Run(cfg, steps).Some? && Run(cfg, steps).value.session.Some?
    ensures Serial(cfg, Run(cfg, steps).value.session.value)
  {
    if steps != [] {
      var front := steps[..|steps| - 1];
      if Run(cfg, front).value.session.Some? {
        EveryRunIsSerial(cfg, front);
      }
      NextKeepsSerial(cfg, Run(cfg, front).value, steps[|steps| - 1]);
    }
  }
}
