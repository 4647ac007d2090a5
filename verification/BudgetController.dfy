/**
 The budget controller and the ledger it appends to, as objects that are updated in place.
 Every method is proved against the decision rules of BudgetPolicy.
 */
module BudgetControl {
  import opened Prelude
  import opened Money
  import opened Pricing
  import opened BudgetEvents
  import opened BudgetReplay
  import opened BudgetPolicy

  /**
   What the storage did with one append: acknowledged it, lost it with an error, reported an error
   although the record is durable, or left a torn record at the end of the file.
   */
  datatype WriteOutcome = Written | Lost | WrittenButFailed | Torn

  /** `log` holds the records written whole; a torn one makes the file unreadable at the next start. */
  class AccountingLedger {
    var log: seq<Event>
    var torn: bool

    constructor ()
      ensures log == [] && !torn
    {
      log, torn := [], false;
    }

    method Append(event: Event, io: WriteOutcome) returns (ok: bool)
      modifies this
      ensures ok <==> io.Written?
      ensures log == LogAfter(old(log), event, io) && torn == (old(torn) || io.Torn?)
    {
      if io.Written? || io.WrittenButFailed? {
        log := log + [event];
      }
      torn := torn || io.Torn?;
      ok := io.Written?;
    }

    /** A torn record and a repeated identifier make the replay fail; nothing else does. */
    method Replay() returns (events: Option<seq<Event>>)
      ensures events.Some? <==> !torn && Replayable(log)
      ensures events.Some? ==> events.value == log
    {
      if torn {
        return None;
      }
      var read: seq<Event> := [];
      var eventIds, reservationIds, settlementIds, approvalIds: set<string> := {}, {}, {}, {};
      for i := 0 to |log|
        invariant read == log[..i] && Replayable(read)
        invariant AreIdsOf(read, eventIds, reservationIds, settlementIds, approvalIds)
      {
        var event := log[i];
        assert log[..i + 1] == read + [event];
        RepeatsIff(read, event, eventIds, reservationIds, settlementIds, approvalIds);
        if Repeats(event, eventIds, reservationIds, settlementIds, approvalIds) {
          if Replayable(log) {
            PartIsReplayable(log, i + 1);
          }
          return None;
        }
        OneMoreIsRead(read, event, eventIds, reservationIds, settlementIds, approvalIds);
        eventIds := eventIds + {event.Id()};
        match event {
          case BudgetReservation(r) => reservationIds := reservationIds + {r.reservationId};
          case BudgetSettlement(s) => settlementIds := settlementIds + {s.settlementId};
          case ApprovalEvent(_, approvalId, _) => approvalIds := approvalIds + {approvalId};
          case OtherEvent(_, _) =>
        }
        read := read + [event];
      }
      events := Some(read);
    }
  }

  /** The duplicate checks of the ledger's own replay. */
  predicate Replayable(log: seq<Event>) {
    && (forall i, j | 0 <= i < j < |log| :: log[i].Id() != log[j].Id())
    && (forall i, j | 0 <= i < j < |log| && log[i].BudgetReservation? && log[j].BudgetReservation? ::
          log[i].reservation.reservationId != log[j].reservation.reservationId)
    && (forall i, j | 0 <= i < j < |log| && log[i].BudgetSettlement? && log[j].BudgetSettlement? ::
          log[i].settlement.settlementId != log[j].settlement.settlementId)
    && (forall i, j | 0 <= i < j < |log| && log[i].ApprovalEvent? && log[j].ApprovalEvent? ::
          log[i].approvalId != log[j].approvalId)
  }

  /** An identifier of the event is among those seen before. */
  predicate Repeats(
      event: Event, eventIds: set<string>, reservationIds: set<string>, settlementIds: set<string>,
      approvalIds: set<string>)
  {
    || event.Id() in eventIds
    || (event.BudgetReservation? && event.reservation.reservationId in reservationIds)
    || (event.BudgetSettlement? && event.settlement.settlementId in settlementIds)
    || (event.ApprovalEvent? && event.approvalId in approvalIds)
  }

  function ReservationIds(log: seq<Event>): set<string> {
    set i | 0 <= i < |log| && log[i].BudgetReservation? :: log[i].reservation.reservationId
  }

  function SettlementIds(log: seq<Event>): set<string> {
    set i | 0 <= i < |log| && log[i].BudgetSettlement? :: log[i].settlement.settlementId
  }

  function ApprovalIds(log: seq<Event>): set<string> {
    set i | 0 <= i < |log| && log[i].ApprovalEvent? :: log[i].approvalId
  }

  predicate AreIdsOf(
      log: seq<Event>, eventIds: set<string>, reservationIds: set<string>, settlementIds: set<string>,
      approvalIds: set<string>)
  {
    && eventIds == (set i | 0 <= i < |log| :: log[i].Id()) && reservationIds == ReservationIds(log)
    && settlementIds == SettlementIds(log) && approvalIds == ApprovalIds(log)
  }

  lemma RepeatsIff(
      log: seq<Event>, event: Event, eventIds: set<string>, reservationIds: set<string>, settlementIds: set<string>,
      approvalIds: set<string>)
    requires Replayable(log) && AreIdsOf(log, eventIds, reservationIds, settlementIds, approvalIds)
    ensures Replayable(log + [event])
            <==> !Repeats(event, eventIds, reservationIds, settlementIds, approvalIds)
  {
    var all := log + [event];
    assert all[|log|] == event && forall i | 0 <= i < |log| :: all[i] == log[i];
  }

  lemma PartIsReplayable(log: seq<Event>, n: nat)
    requires n <= |log| && Replayable(log)
    ensures Replayable(log[..n])
  {
  }

  lemma OneMoreIsRead(
      log: seq<Event>, event: Event, eventIds: set<string>, reservationIds: set<string>, settlementIds: set<string>,
      approvalIds: set<string>)
    requires AreIdsOf(log, eventIds, reservationIds, settlementIds, approvalIds)
    ensures AreIdsOf(log + [event], eventIds + {event.Id()},
                     reservationIds + (if event.BudgetReservation? then {event.reservation.reservationId} else {}),
                     settlementIds + (if event.BudgetSettlement? then {event.settlement.settlementId} else {}),
                     approvalIds + if event.ApprovalEvent? then {event.approvalId} else {})
  {
    var all := log + [event];
    assert all[|log|] == event && forall i | 0 <= i < |log| :: all[i] == log[i];
  }

  /** The controller a successful start-up builds from the log. */
  ghost function StartedFrom(log: seq<Event>): Controller
    requires Derivable(log)
  {
    Controller(log, ActiveIds(Records(log).value), false)
  }

  /** When a start-up succeeds. */
  ghost predicate MayStart(log: seq<Event>, torn: bool) {
    !torn && Replayable(log) && Derivable(log)
  }

  function LogAfter(log: seq<Event>, event: Event, io: WriteOutcome): seq<Event> {
    if io.Written? || io.WrittenButFailed? then log + [event] else log
  }

  /** The caller-visible outcome and the controller after an append was attempted. */
  function AfterAppend(c: Controller, d: Decision, io: WriteOutcome): Controller {
    if !d.Append? then c
    else if io.Written? then Commit(c, d)
    else c.(storageFailed := true)
  }

  function OutcomeOf(d: Decision, io: WriteOutcome): Result<Event, Failure> {
    match d
    case Refuse(failure) => Err(failure)
    case Append(event, _) => if io.Written? then Ok(event) else Err(Refused(StorageFailure))
    case Answer(quoted) => Ok(BudgetReservation(quoted))
  }

  function ReadTotal(totals: Totals, key: Key, meter: Meter): nat {
    if key in totals.usage then Read(totals.usage[key], meter) else Entry(totals.counters, key)
  }

  /** The checks read the candidate totals, which are the sums the rules speak of. */
  lemma ChecksReadSums(cfg: Config, totals: Totals, records: seq<Record>, r: Reservation)
    requires Matches(totals, records + [Record(r, None)])
    ensures LimitChecks(cfg, r, (family, meter) => ReadTotal(totals, KeyIn(r, family), meter))
            == LimitChecks(cfg, r, CandidateSum(records, r))
  {
    var all := records + [Record(r, None)];
    forall family: Family, meter | (CloudOnly(family) ==> r.cloud)
        && (family.HoldsUsage() || meter == CounterMeter(family))
      ensures ReadTotal(totals, KeyIn(r, family), meter) == Sum(all, KeyIn(r, family), meter)
    {
      assert MatchesAt(totals, all, KeyIn(r, family));
      assert Counts(all[|records|], KeyIn(r, family));
    }
    ChecksReadOwnScopes(cfg, r, (family, meter) => ReadTotal(totals, KeyIn(r, family), meter),
                        CandidateSum(records, r));
  }

  class BudgetController {
    const cfg: Config
    const ledger: AccountingLedger
    var events: seq<Event>
    var recovered: set<string>
    var state: BudgetState
    var storageFailed: bool

    function Contents(): Controller
      reads this
    {
      Controller(events, recovered, storageFailed)
    }

    /** The cached state is what the events and the recovered ids derive. */
    ghost predicate Valid()
      reads this
    {
      Derivable(events) && Describes(state, Records(events).value, Some(recovered))
    }

    /** Start-up after a successful ledger replay: every active reservation counts as recovered. */
    constructor (cfg: Config, ledger: AccountingLedger, events: seq<Event>, replayed: BudgetState)
      requires Derivable(events) && Describes(replayed, Records(events).value, None)
      ensures Valid() && this.cfg == cfg && this.ledger == ledger
      ensures Contents() == Controller(events, ActiveIds(Records(events).value), false)
    {
      this.cfg := cfg;
      this.ledger := ledger;
      this.events := events;
      this.recovered := replayed.active.Keys;
      this.state := replayed;
      this.storageFailed := false;
    }

    /** Fails closed when the prices are of another configuration, or when either replay fails. */
    static method Initialize(cfg: Config, ledger: AccountingLedger, pricingHash: string)
      returns (r: Option<BudgetController>)
      ensures r.Some? <==> pricingHash == cfg.configHash && MayStart(ledger.log, ledger.torn)
      ensures r.Some? ==> fresh(r.value) && r.value.Valid() && r.value.cfg == cfg && r.value.ledger == ledger
      ensures r.Some? ==> r.value.Contents() == StartedFrom(ledger.log)
    {
      if pricingHash != cfg.configHash {
        return None;
      }
      var events := ledger.Replay();
      if events.None? {
        return None;
      }
      var replayed := DeriveBudgetState(events.value, None);
      if replayed.None? {
        return None;
      }
      var controller := new BudgetController(cfg, ledger, events.value, replayed.value);
      r := Some(controller);
    }

    method PrepareReservation(q: ReserveRequest, now: Option<string>)
      returns (r: Result<(Reservation, BudgetState), Failure>)
      requires Valid()
      ensures r.Err? ==> Prepare(cfg, Contents(), q, now) == Refuse(r.error)
      ensures r.Ok? ==> Prepare(cfg, Contents(), q, now) == Append(BudgetReservation(r.value.0), recovered)
      ensures r.Ok? ==> Derivable(events + [BudgetReservation(r.value.0)])
      ensures r.Ok? ==> Describes(r.value.1, Records(events + [BudgetReservation(r.value.0)]).value, Some(recovered))
    {
      if storageFailed {
        return Err(Refused(StorageFailure));
      }
      if q.automatic && state.circuitOpen {
        return Err(Refused(DiscrepancyBlock));
      }
      if q.automatic && state.blocking != {} {
        return Err(Refused(RecoveryRequired));
      }
      var made := ReservationFor(cfg, q, now);
      if made.Err? {
        return Err(made.error);
      }
      var reservation := made.value;
      var candidate := DeriveBudgetState(events + [BudgetReservation(reservation)], Some(recovered));
      if candidate.None? {
        return Err(StateError);
      }
      RecordsAppend(events, BudgetReservation(reservation));
      var totals := candidate.value.totals;
      ChecksReadSums(cfg, totals, Records(events).value, reservation);
      var refusal := FirstFailing(
        LimitChecks(cfg, reservation, (family, meter) => ReadTotal(totals, KeyIn(reservation, family), meter)));
      if refusal.Some? {
        return Err(Refused(refusal.value));
      }
      r := Ok((reservation, candidate.value));
    }

    /** Append first, then apply; a failed append changes nothing but the storage flag. */
    method AppendAndApply(event: Event, candidate: BudgetState, nextRecovered: set<string>, io: WriteOutcome)
      returns (ok: bool)
      requires Valid() && !storageFailed
      requires Derivable(events + [event]) && Describes(candidate, Records(events + [event]).value, Some(nextRecovered))
      modifies this, ledger
      ensures Valid()
      ensures ok <==> io.Written?
      ensures Contents() == AfterAppend(old(Contents()), Append(event, nextRecovered), io)
      ensures ledger.log == LogAfter(old(ledger.log), event, io)
      ensures ledger.torn == (old(ledger.torn) || io.Torn?)
    {
      ok := ledger.Append(event, io);
      if !ok {
        storageFailed := true;
        return;
      }
      events := events + [event];
      recovered := nextRecovered;
      state := candidate;
    }

    method Reserve(q: ReserveRequest, now: Option<string>, io: WriteOutcome) returns (r: Result<Event, Failure>)
      requires Valid()
      modifies this, ledger
      ensures Valid()
      ensures r == OutcomeOf(DecideReserve(cfg, old(Contents()), q, now), io)
      ensures Contents() == AfterAppend(old(Contents()), DecideReserve(cfg, old(Contents()), q, now), io)
      ensures LedgerFollows(old(ledger.log), old(ledger.torn), DecideReserve(cfg, old(Contents()), q, now), io,
                            ledger.log, ledger.torn)
    {
      if UsesEventId(events, q.eventId) || UsesReservationId(events, q.reservationId) {
        return Err(Refused(DuplicateTransition));
      }
      var prepared := PrepareReservation(q, now);
      if prepared.Err? {
        return Err(prepared.error);
      }
      var (reservation, candidate) := prepared.value;
      var ok := AppendAndApply(BudgetReservation(reservation), candidate, recovered, io);
      r := if ok then Ok(BudgetReservation(reservation)) else Err(Refused(StorageFailure));
    }

    /** A dry run: the same preparation with made-up ids, and nothing is written. */
    method Quote(q: QuoteRequest, now: Option<string>) returns (r: Result<Reservation, Failure>)
      requires Valid()
      ensures DecideQuote(cfg, Contents(), q, now) == match r case Ok(quoted) => Answer(quoted) case Err(e) => Refuse(e)
    {
      var prepared := PrepareReservation(q.DryRun(cfg.quoteHash(|events|, q)), now);
      r := if prepared.Err? then Err(prepared.error) else Ok(prepared.value.0);
    }

    method RequireActive(reservationId: string, eventId: string, settlementId: string)
      returns (r: Result<Reservation, Code>)
      requires Valid()
      ensures r.Err? <==> CloseRefusal(Contents(), reservationId, eventId, settlementId).Some?
      ensures r.Err? ==> CloseRefusal(Contents(), reservationId, eventId, settlementId) == Some(r.error)
      ensures r.Ok? ==> reservationId in ActiveIds(Contents().Records())
                        && r.value == Active(Contents(), reservationId)
    {
      if storageFailed {
        return Err(StorageFailure);
      }
      ActiveOrClosed(events, reservationId);
      if reservationId !in state.active {
        return Err(if reservationId in state.settledIds then AlreadySettled else UnknownReservation);
      }
      if UsesEventId(events, eventId) || UsesSettlementId(events, settlementId) {
        return Err(DuplicateTransition);
      }
      r := Ok(state.active[reservationId].reservation);
    }

    method AppendSettlement(s: Settlement, io: WriteOutcome) returns (r: Result<Event, Failure>)
      requires Valid() && !storageFailed
      modifies this, ledger
      ensures Valid()
      ensures r == OutcomeOf(Close(old(Contents()), Ok(s)), io)
      ensures Contents() == AfterAppend(old(Contents()), Close(old(Contents()), Ok(s)), io)
      ensures LedgerFollows(old(ledger.log), old(ledger.torn), Close(old(Contents()), Ok(s)), io, ledger.log,
                            ledger.torn)
    {
      var event := BudgetSettlement(s);
      var nextRecovered := recovered - {s.reservationId};
      var candidate := DeriveBudgetState(events + [event], Some(nextRecovered));
      if candidate.None? {
        return Err(StateError);
      }
      var ok := AppendAndApply(event, candidate.value, nextRecovered, io);
      r := if ok then Ok(event) else Err(Refused(StorageFailure));
    }

    method Settle(q: SettleRequest, now: Option<string>, io: WriteOutcome) returns (r: Result<Event, Failure>)
      requires Valid()
      modifies this, ledger
      ensures Valid()
      ensures r == OutcomeOf(DecideSettle(cfg, old(Contents()), q, now), io)
      ensures Contents() == AfterAppend(old(Contents()), DecideSettle(cfg, old(Contents()), q, now), io)
      ensures LedgerFollows(old(ledger.log), old(ledger.torn), DecideSettle(cfg, old(Contents()), q, now), io,
                            ledger.log, ledger.torn)
    {
      var active := RequireActive(q.reservationId, q.eventId, q.settlementId);
      if active.Err? {
        return Err(Refused(active.error));
      }
      var made := SettlementFor(cfg, active.value, q, now);
      if made.Err? {
        return Err(made.error);
      }
      r := AppendSettlement(made.value, io);
    }

    method Release(q: ReleaseRequest, now: Option<string>, io: WriteOutcome) returns (r: Result<Event, Failure>)
      requires Valid()
      modifies this, ledger
      ensures Valid()
      ensures r == OutcomeOf(DecideRelease(cfg, old(Contents()), q, now), io)
      ensures Contents() == AfterAppend(old(Contents()), DecideRelease(cfg, old(Contents()), q, now), io)
      ensures LedgerFollows(old(ledger.log), old(ledger.torn), DecideRelease(cfg, old(Contents()), q, now), io,
                            ledger.log, ledger.torn)
    {
      var active := RequireActive(q.reservationId, q.eventId, q.settlementId);
      if active.Err? {
        return Err(Refused(active.error));
      }
      var made := ReleaseFor(cfg, active.value, q, now);
      if made.Err? {
        return Err(made.error);
      }
      r := AppendSettlement(made.value, io);
    }

    /** The public state is derived afresh and equals the cached one. */
    method GetState() returns (s: BudgetState)
      requires Valid()
      ensures s == state
    {
      var derived := DeriveBudgetState(events, Some(recovered));
      StateUnique(derived.value, state, Records(events).value, Some(recovered));
      s := derived.value;
    }
  }

  predicate LedgerFollows(log: seq<Event>, torn: bool, d: Decision, io: WriteOutcome, log': seq<Event>, torn': bool) {
    match d
    case Refuse(_) => log' == log && torn' == torn
    case Answer(_) => log' == log && torn' == torn
    case Append(event, _) => log' == LogAfter(log, event, io) && torn' == (torn || io.Torn?)
  }

  /** Every known reservation is either active or closed, never both. */
  lemma ActiveOrClosed(events: seq<Event>, id: string)
    requires Records(events).Some?
    ensures id in ActiveIds(Records(events).value) ==> id !in ClosedIds(Records(events).value)
    ensures id in ActiveIds(Records(events).value) ==>
            var records := Records(events).value;
            Find(records, id) < |records| && records[Find(records, id)].IsActive()
  {
    RecordsWellFormed(events);
  }
}
