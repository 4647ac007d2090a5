/**
 Runs of the verified cache: operations one at a time keep outcomes exclusive and traceable, and
 whatever the storage holds, an outcome that is contested or was never recorded is not served.
 */
module CacheRuns {
  import opened Prelude
  import opened CacheLineage
  import opened CacheEvidence
  import opened CacheRuntime

  // ---- Inspection facts ----

  lemma RevisionsAreStored(storage: seq<Entry>, namespace: Namespace, key: CacheKey)
    ensures forall e :: e in Revisions(storage, namespace, key) <==>
              e in storage && e.body.namespace == namespace && e.body.key == key
  {
    SelectIsFilter(storage, (e: Entry) => e.body.namespace == namespace && e.body.key == key);
  }

  lemma ReadyIsStored(cfg: CacheConfig, storage: seq<Entry>, namespace: Namespace, key: CacheKey)
    requires Inspected(cfg, storage, namespace, key).Ready?
    ensures var e := Inspected(cfg, storage, namespace, key).head;
            e in storage && ValidEntry(cfg, e) && e.body.namespace == namespace && e.body.key == key
  {
    var revisions := Revisions(storage, namespace, key);
    RevisionsAreStored(storage, namespace, key);
    var chain :| Arranges(chain, revisions, namespace) && HeadOf(revisions, namespace) == Some(chain[|chain| - 1]);
    SameElements(chain, revisions);
    assert chain[|chain| - 1] in chain;
  }

  lemma VacantMeansNone(cfg: CacheConfig, storage: seq<Entry>, namespace: Namespace, e: Entry)
    requires Vacant(cfg, storage, namespace, e)
    ensures forall other | other in storage && ValidEntry(cfg, other) && other.body.namespace == namespace ::
              other.body.metadata != e.body.metadata
  {
    RevisionsAreStored(storage, namespace, CacheKey(namespace, e.body.metadata));
    assert forall other :: other !in Revisions(storage, namespace, CacheKey(namespace, e.body.metadata));
  }

  // ---- Lookups, whatever the storage holds ----

  /** Everything a hit guarantees. */
  lemma HitIsSound(cfg: CacheConfig, c: Cache, key: CacheKey, metadata: Metadata, now: Option<int>)
    requires LookedUp(cfg, c, key, metadata, now).Hit?
    ensures var e := LookedUp(cfg, c, key, metadata, now).entry;
            && e in c.storage && ValidEntry(cfg, e)
            && e.body.state == Verified && e.body.key == key && e.body.metadata == metadata
            && now.Some? && now.value < e.body.expiresAt
            && MatchesWriteEvent(c, e)
            && cfg.verification.Some? && e.body.evidence.Some?
            && var evidence, context := e.body.evidence.value, cfg.verification.value;
               && Members(evidence.requiredStages) == Members(StageIds(evidence.stages))
               && |evidence.stages| == |evidence.requiredStages|
               && forall i | 0 <= i < |evidence.stages| :: StagePassed(evidence.stages[i], context.allowedCommands)
    ensures forall other | other in c.storage && ValidEntry(cfg, other) && other.body.namespace == NegativeOutcome ::
              other.body.metadata != metadata
  {
    ReadyIsStored(cfg, c.storage, VerifiedArtifact, key);
    var e := LookedUp(cfg, c, key, metadata, now).entry;
    AcceptedEvidenceIsExact(e.body.evidence.value, cfg.verification.value);
    VacantMeansNone(cfg, c.storage, NegativeOutcome, e);
  }

  lemma NegativeHitIsSound(cfg: CacheConfig, c: Cache, key: CacheKey, metadata: Metadata, now: Option<int>)
    requires LookedUpNegative(cfg, c, key, metadata, now).NegativeHit?
    ensures var e := LookedUpNegative(cfg, c, key, metadata, now).negative;
            && e in c.storage && ValidEntry(cfg, e)
            && e.body.state == Negative && e.body.key == key && e.body.metadata == metadata
            && now.Some? && now.value < e.body.expiresAt
            && MatchesWriteEvent(c, e)
    ensures forall other | other in c.storage && ValidEntry(cfg, other) && other.body.namespace == VerifiedArtifact ::
              other.body.metadata != metadata
  {
    ReadyIsStored(cfg, c.storage, NegativeOutcome, key);
    VacantMeansNone(cfg, c.storage, VerifiedArtifact, LookedUpNegative(cfg, c, key, metadata, now).negative);
  }

  /** When both outcomes of the same metadata are stored, by whatever race, neither is served. */
  lemma ContestedIsNeverServed(cfg: CacheConfig, c: Cache, verified: Entry, negative: Entry,
                               key: CacheKey, now: Option<int>)
    requires verified in c.storage && ValidEntry(cfg, verified) && verified.body.namespace == VerifiedArtifact
    requires negative in c.storage && ValidEntry(cfg, negative) && negative.body.namespace == NegativeOutcome
    requires verified.body.metadata == negative.body.metadata
    ensures !LookedUp(cfg, c, key, verified.body.metadata, now).Hit?
    ensures !LookedUpNegative(cfg, c, key, verified.body.metadata, now).NegativeHit?
  {
    if LookedUp(cfg, c, key, verified.body.metadata, now).Hit? {
      HitIsSound(cfg, c, key, verified.body.metadata, now);
    }
    if LookedUpNegative(cfg, c, key, verified.body.metadata, now).NegativeHit? {
      NegativeHitIsSound(cfg, c, key, verified.body.metadata, now);
    }
  }

  predicate Serves(verified: Option<Lookup>, negative: Option<NegativeLookup>, e: Entry) {
    || (verified.Some? && verified.value.Hit? && verified.value.entry == e)
    || (negative.Some? && negative.value.NegativeHit? && negative.value.negative == e)
  }

  /** An entry without its write event is not served. */
  lemma UnrecordedIsNotServed(
      cfg: CacheConfig, c: Cache, e: Entry, key: CacheKey, metadata: Metadata, now: Option<int>, io: AuditIo)
    requires !MatchesWriteEvent(c, e)
    ensures !Serves(Answer(cfg, c, key, metadata, now, io), NegativeAnswer(cfg, c, key, metadata, now, io), e)
  {
    var looked, lookedNegative := LookNoted(c, key, VerifiedArtifact, io), LookNoted(c, key, NegativeOutcome, io);
    if LookedUp(cfg, looked, key, metadata, now).Hit? {
      HitIsSound(cfg, looked, key, metadata, now);
    }
    if LookedUpNegative(cfg, lookedNegative, key, metadata, now).NegativeHit? {
      NegativeHitIsSound(cfg, lookedNegative, key, metadata, now);
    }
  }

  lemma TwoNotes(c: Cache, a: Note, b: Note, key: CacheKey, namespace: Namespace, io: AuditIo, n: nat)
    requires n + 2 <= io.appends
    ensures AfterNotes(c, [a, b], key, namespace, io, n).ledger
            == c.ledger + [EventOf(a, key, namespace, io.stamp(n)), EventOf(b, key, namespace, io.stamp(n + 1))]
  {
    assert [a, b][1..] == [b] && [b][1..] == [];
    var noted := AfterNote(c, a, key, namespace, io, n);
    assert AfterNotes(noted, [b], key, namespace, io, n + 1) == AfterNote(noted, b, key, namespace, io, n + 1);
  }

  /** Nothing is served before it is durable that it is: the look, the hit and the reuse of the entry. */
  lemma ServedIsRecorded(cfg: CacheConfig, c: Cache, key: CacheKey, metadata: Metadata, now: Option<int>, io: AuditIo)
    requires Answer(cfg, c, key, metadata, now, io).Some? && Answer(cfg, c, key, metadata, now, io).value.Hit?
    ensures var about := Some(ReferenceTo(Answer(cfg, c, key, metadata, now, io).value.entry));
            AfterLookup(cfg, c, key, metadata, now, io).ledger
            == c.ledger + [EventOf(LOOK, key, VerifiedArtifact, io.stamp(0))]
               + [EventOf(Note(Serve, about, None), key, VerifiedArtifact, io.stamp(1)),
                  EventOf(Note(Reuse, about, None), key, VerifiedArtifact, io.stamp(2))]
  {
    var e := Answer(cfg, c, key, metadata, now, io).value.entry;
    var looked := LookNoted(c, key, VerifiedArtifact, io);
    assert NotesOf(Found(cfg, c, key, metadata, now, io))
           == [Note(Serve, Some(ReferenceTo(e)), None), Note(Reuse, Some(ReferenceTo(e)), None)];
    TwoNotes(looked, Note(Serve, Some(ReferenceTo(e)), None), Note(Reuse, Some(ReferenceTo(e)), None), key,
             VerifiedArtifact, io, 1);
  }

  // ---- Runs with one operation at a time ----

  /** `Decide`: a person decides on an approval, and another component appends that to the ledger. */
  datatype CacheStep =
    | Begin(input: Body, now: int, io: PersistIo)
    | StoreUnverified(parent: Entry, input: Body, now: int, io: PersistIo)
    | Publish(parent: Entry, input: Body, now: int, io: PersistIo)
    | StoreNegative(parent: Entry, input: Body, now: int, io: PersistIo)
    | LookUp(key: CacheKey, metadata: Metadata, time: Option<int>, audit: AuditIo)
    | LookUpNegative(key: CacheKey, metadata: Metadata, time: Option<int>, audit: AuditIo)
    | Decide(eventId: string, occurredAt: int, taskId: string, scope: string, decision: Decision)
    | Reopen

  /** The configuration with the decisions that the running process knows of. */
  function Current(cfg: CacheConfig, c: Cache): CacheConfig { cfg.(approvals := c.approvals) }

  function Reopened(c: Cache): Cache {
    c.(known := KnownFrom(c.ledger), approvals := ApprovalsFrom(c.ledger))
  }

  ghost function Next(cfg: CacheConfig, c: Cache, step: CacheStep): Cache {
    match step
    case Begin(input, now, io) => AfterBegin(Current(cfg, c), c, input, now, io)
    case StoreUnverified(parent, input, now, io) => AfterStore(Current(cfg, c), c, parent, input, now, io)
    case Publish(parent, input, now, io) => AfterPublish(Current(cfg, c), c, parent, input, now, io)
    case StoreNegative(parent, input, now, io) => AfterNegative(Current(cfg, c), c, parent, input, now, io)
    case LookUp(key, metadata, time, audit) => AfterLookup(Current(cfg, c), c, key, metadata, time, audit)
    case LookUpNegative(key, metadata, time, audit) =>
      AfterNegativeLookup(Current(cfg, c), c, key, metadata, time, audit)
    case Decide(eventId, occurredAt, taskId, scope, decision) =>
      Logged(c, ApprovalEvent(eventId, occurredAt, taskId, scope, decision))
    case Reopen => Reopened(c)
  }

  ghost function RunFrom(cfg: CacheConfig, c: Cache, steps: seq<CacheStep>): Cache {
    if steps == [] then c else Next(cfg, RunFrom(cfg, c, steps[..|steps| - 1]), steps[|steps| - 1])
  }

  const EMPTY_CACHE: Cache := Cache([], [], map[], map[])

  /** An operation that passes its checks: it persists an entry derived as its kind demands. */
  ghost predicate MayPersist(cfg: CacheConfig, storage: seq<Entry>, e: Entry) {
    ValidEntry(cfg, e) &&
    (MayBegin(cfg, storage, e)
     || (exists parent :: MayStoreUnverified(cfg, storage, parent, e))
     || (exists parent :: MayPublish(cfg, storage, parent, e))
     || (exists parent :: MayStoreNegative(cfg, storage, parent, e)))
  }

  /** The ledger grows by events that are not writes; what is newly known is among them. */
  ghost predicate OnlyLogs(c: Cache, d: Cache) {
    && d.storage == c.storage && d.approvals == c.approvals && c.ledger <= d.ledger
    && (forall event | event in d.ledger[|c.ledger|..] :: !event.WriteEvent?)
    && (forall id | id in d.known :: (id in c.known && d.known[id] == c.known[id]) || d.known[id] in d.ledger)
  }

  lemma OnlyLogsTwice(a: Cache, b: Cache, c: Cache)
    requires OnlyLogs(a, b) && OnlyLogs(b, c)
    ensures OnlyLogs(a, c)
  {
    assert c.ledger[|a.ledger|..] == b.ledger[|a.ledger|..] + c.ledger[|b.ledger|..];
    forall id | id in c.known
      ensures (id in a.known && c.known[id] == a.known[id]) || c.known[id] in c.ledger
    {
      if id in b.known && c.known[id] == b.known[id] && b.known[id] in b.ledger {
        assert b.ledger == c.ledger[..|b.ledger|];
      }
    }
  }

  lemma OneNoteLogs(c: Cache, note: Note, key: CacheKey, namespace: Namespace, io: AuditIo, n: nat)
    ensures OnlyLogs(c, AfterNote(c, note, key, namespace, io, n))
  {
    var event := EventOf(note, key, namespace, io.stamp(n));
    assert (c.ledger + [event])[|c.ledger|..] == [event];
  }

  lemma {:induction false} NotesOnlyLog(
      c: Cache, notes: seq<Note>, key: CacheKey, namespace: Namespace, io: AuditIo, n: nat)
    ensures OnlyLogs(c, AfterNotes(c, notes, key, namespace, io, n))
    decreases |notes|
  {
    if notes != [] {
      OneNoteLogs(c, notes[0], key, namespace, io, n);
      if n < io.appends {
        var noted := AfterNote(c, notes[0], key, namespace, io, n);
        NotesOnlyLog(noted, notes[1..], key, namespace, io, n + 1);
        OnlyLogsTwice(c, noted, AfterNotes(c, notes, key, namespace, io, n));
      }
    }
  }

  lemma LookupsOnlyLog(cfg: CacheConfig, c: Cache, key: CacheKey, metadata: Metadata, time: Option<int>, io: AuditIo)
    ensures OnlyLogs(c, AfterLookup(cfg, c, key, metadata, time, io))
    ensures OnlyLogs(c, AfterNegativeLookup(cfg, c, key, metadata, time, io))
  {
    var looked := LookNoted(c, key, VerifiedArtifact, io);
    OneNoteLogs(c, LOOK, key, VerifiedArtifact, io, 0);
    NotesOnlyLog(looked, NotesOf(Found(cfg, c, key, metadata, time, io)), key, VerifiedArtifact, io, 1);
    if io.appends > 0 { OnlyLogsTwice(c, looked, AfterLookup(cfg, c, key, metadata, time, io)); }
    looked := LookNoted(c, key, NegativeOutcome, io);
    OneNoteLogs(c, LOOK, key, NegativeOutcome, io, 0);
    NotesOnlyLog(looked, NotesOfNegative(FoundNegative(cfg, c, key, metadata, time, io)), key, NegativeOutcome, io, 1);
    if io.appends > 0 { OnlyLogsTwice(c, looked, AfterNegativeLookup(cfg, c, key, metadata, time, io)); }
  }

  predicate IsOperation(step: CacheStep) {
    step.Begin? || step.StoreUnverified? || step.Publish? || step.StoreNegative?
  }

  lemma OperationPersists(cfg: CacheConfig, c: Cache, step: CacheStep)
    requires IsOperation(step) && Next(cfg, c, step) != c
    ensures Finalize(cfg, step.input).Some?
    ensures var e := Finalize(cfg, step.input).value;
            MayPersist(Current(cfg, c), c.storage, e) && Next(cfg, c, step) == Persisted(c, e, step.now, step.io)
  {
  }

  /** Every step persists one permitted entry, reopens, or at most adds events that are not writes. */
  lemma StepsPersist(cfg: CacheConfig, c: Cache, step: CacheStep)
    ensures || OnlyLogs(c, Next(cfg, c, step)) || Next(cfg, c, step) == Reopened(c)
            || exists e, now, io ::
               MayPersist(Current(cfg, c), c.storage, e) && Next(cfg, c, step) == Persisted(c, e, now, io)
  {
    match step
    case Reopen =>
    case LookUp(key, metadata, time, audit) => LookupsOnlyLog(Current(cfg, c), c, key, metadata, time, audit);
    case LookUpNegative(key, metadata, time, audit) => LookupsOnlyLog(Current(cfg, c), c, key, metadata, time, audit);
    case Decide(eventId, occurredAt, taskId, scope, decision) =>
      var event := ApprovalEvent(eventId, occurredAt, taskId, scope, decision);
      assert (c.ledger + [event])[|c.ledger|..] == [event];
    case _ =>
      if Next(cfg, c, step) != c {
        OperationPersists(cfg, c, step);
      }
  }

  predicate OutcomesExclusive(storage: seq<Entry>) {
    forall a, b | a in storage && b in storage
      && a.body.namespace == VerifiedArtifact && b.body.namespace == NegativeOutcome ::
      a.body.metadata != b.body.metadata
  }

  /** The unverified entry that a verified one was published from. */
  predicate IsSourceOf(source: Entry, e: Entry) {
    && source.body.state == Unverified && e.body.parentHash == Some(source.hash)
    && source.body.payload == e.body.payload && source.body.metadata == e.body.metadata
  }

  predicate VerifiedHasSource(storage: seq<Entry>) {
    forall e | e in storage && e.body.state == Verified :: exists source :: source in storage && IsSourceOf(source, e)
  }

  /** Storage comes before the ledger: every write on record is stored. */
  predicate WritesAreStored(c: Cache) {
    forall event | event in c.ledger && event.WriteEvent? :: exists e :: e in c.storage && Records(event, e)
  }

  predicate KnownIsLogged(c: Cache) {
    && (forall id | id in c.known :: c.known[id] in c.ledger)
    && (forall task | task in c.approvals :: HasDecision(c.ledger, task.0, task.1, c.approvals[task]))
  }

  predicate HasDecision(ledger: seq<LedgerEvent>, taskId: string, scope: string, decision: Decision) {
    exists event | event in ledger ::
      event.ApprovalEvent? && event.taskId == taskId && event.scope == scope && event.decision == decision
  }

  /** Sensitive data is stored only for tasks with an approval on record. */
  predicate SensitiveIsApproved(c: Cache) {
    forall e | e in c.storage && e.body.metadata.sensitive ::
      HasDecision(c.ledger, e.body.metadata.taskId, SENSITIVE_CACHE, Approved)
  }

  ghost predicate CacheInv(cfg: CacheConfig, c: Cache) {
    && (forall e | e in c.storage :: ValidEntry(cfg, e))
    && OutcomesExclusive(c.storage)
    && VerifiedHasSource(c.storage)
    && WritesAreStored(c) && KnownIsLogged(c) && SensitiveIsApproved(c)
  }

  lemma StoredIsUnion(storage: seq<Entry>, e: Entry)
    ensures forall x :: x in Stored(storage, e) <==> x in storage || x == e
  {
  }

  lemma PersistKeepsExclusive(cfg: CacheConfig, c: Cache, e: Entry)
    requires CacheInv(cfg, c) && MayPersist(Current(cfg, c), c.storage, e)
    ensures OutcomesExclusive(Stored(c.storage, e))
  {
    StoredIsUnion(c.storage, e);
    if e.body.namespace == VerifiedArtifact {
      assert e.body.state == Verified || e.body.state == Quarantined;
      VacantMeansNone(Current(cfg, c), c.storage, NegativeOutcome, e);
    } else if e.body.namespace == NegativeOutcome {
      VacantMeansNone(Current(cfg, c), c.storage, VerifiedArtifact, e);
    }
  }

  lemma PersistKeepsSources(cfg: CacheConfig, c: Cache, e: Entry)
    requires CacheInv(cfg, c) && MayPersist(Current(cfg, c), c.storage, e)
    ensures VerifiedHasSource(Stored(c.storage, e))
  {
    StoredIsUnion(c.storage, e);
    forall x | x in Stored(c.storage, e) && x.body.state == Verified
      ensures exists source :: source in Stored(c.storage, e) && IsSourceOf(source, x)
    {
      if x == e {
        var parent :| MayPublish(Current(cfg, c), c.storage, parent, e);
        ReadyIsStored(Current(cfg, c), c.storage, parent.body.namespace, parent.body.key);
        assert IsSourceOf(parent, e);
      } else {
        var source :| source in c.storage && IsSourceOf(source, x);
        assert source in Stored(c.storage, e);
      }
    }
  }

  lemma DecisionStays(
      ledger: seq<LedgerEvent>, more: seq<LedgerEvent>, taskId: string, scope: string, decision: Decision)
    requires HasDecision(ledger, taskId, scope, decision)
    ensures HasDecision(ledger + more, taskId, scope, decision)
  {
    var event :| event in ledger && event.ApprovalEvent? && event.taskId == taskId && event.scope == scope
                 && event.decision == decision;
    assert event in ledger + more;
  }

  lemma {:induction false} ReadBack(ledger: seq<LedgerEvent>)
    ensures forall id | id in KnownFrom(ledger) :: KnownFrom(ledger)[id] in ledger
    ensures forall task | task in ApprovalsFrom(ledger) ::
              HasDecision(ledger, task.0, task.1, ApprovalsFrom(ledger)[task])
  {
    if ledger != [] {
      var front, last := ledger[..|ledger| - 1], ledger[|ledger| - 1];
      ReadBack(front);
      assert ledger == front + [last] && last in ledger;
      forall task | task in ApprovalsFrom(ledger)
        ensures HasDecision(ledger, task.0, task.1, ApprovalsFrom(ledger)[task])
      {
        if !(last.ApprovalEvent? && task == (last.taskId, last.scope)) {
          DecisionStays(front, [last], task.0, task.1, ApprovalsFrom(front)[task]);
        }
      }
    }
  }

  /** What only adds events keeps what was on record. */
  lemma LoggingKeepsInv(cfg: CacheConfig, c: Cache, d: Cache)
    requires CacheInv(cfg, c) && OnlyLogs(c, d)
    ensures CacheInv(cfg, d)
  {
    var more := d.ledger[|c.ledger|..];
    assert d.ledger == c.ledger + more;
    forall task | task in d.approvals
      ensures HasDecision(d.ledger, task.0, task.1, d.approvals[task])
    {
      DecisionStays(c.ledger, more, task.0, task.1, c.approvals[task]);
    }
    forall e | e in d.storage && e.body.metadata.sensitive
      ensures HasDecision(d.ledger, e.body.metadata.taskId, SENSITIVE_CACHE, Approved)
    {
      DecisionStays(c.ledger, more, e.body.metadata.taskId, SENSITIVE_CACHE, Approved);
    }
  }

  lemma ReopeningKeepsInv(cfg: CacheConfig, c: Cache)
    requires CacheInv(cfg, c)
    ensures CacheInv(cfg, Reopened(c))
  {
    ReadBack(c.ledger);
  }

  lemma PersistKeepsApproved(cfg: CacheConfig, c: Cache, e: Entry, more: seq<LedgerEvent>)
    requires CacheInv(cfg, c) && MayPersist(Current(cfg, c), c.storage, e)
    ensures SensitiveIsApproved(c.(storage := Stored(c.storage, e), ledger := c.ledger + more))
  {
    StoredIsUnion(c.storage, e);
    forall x | x in Stored(c.storage, e) && x.body.metadata.sensitive
      ensures HasDecision(c.ledger + more, x.body.metadata.taskId, SENSITIVE_CACHE, Approved)
    {
      if x == e {
        assert PersistenceAllowed(Current(cfg, c), e);
        assert (e.body.metadata.taskId, SENSITIVE_CACHE) in c.approvals;
      }
      DecisionStays(c.ledger, more, x.body.metadata.taskId, SENSITIVE_CACHE, Approved);
    }
  }

  lemma PersistKeepsRecords(cfg: CacheConfig, c: Cache, e: Entry, now: int, io: PersistIo)
    requires CacheInv(cfg, c)
    ensures WritesAreStored(Persisted(c, e, now, io)) && KnownIsLogged(Persisted(c, e, now, io))
  {
    var event, d := WriteEventOf(e, now), Persisted(c, e, now, io);
    StoredIsUnion(c.storage, e);
    assert d.ledger == c.ledger || d.ledger == c.ledger + [event];
    forall x | x in d.ledger && x.WriteEvent?
      ensures exists y :: y in d.storage && Records(x, y)
    {
      if x in c.ledger {
        var y :| y in c.storage && Records(x, y);
        assert y in d.storage;
      } else {
        assert e in d.storage && Records(x, e);
      }
    }
    forall task | task in d.approvals
      ensures HasDecision(d.ledger, task.0, task.1, d.approvals[task])
    {
      DecisionStays(c.ledger, [event], task.0, task.1, c.approvals[task]);
    }
  }

  lemma PersistKeepsInv(cfg: CacheConfig, c: Cache, e: Entry, now: int, io: PersistIo)
    requires CacheInv(cfg, c) && MayPersist(Current(cfg, c), c.storage, e)
    ensures CacheInv(cfg, Persisted(c, e, now, io))
  {
    PersistKeepsExclusive(cfg, c, e);
    PersistKeepsSources(cfg, c, e);
    PersistKeepsRecords(cfg, c, e, now, io);
    PersistKeepsApproved(cfg, c, e, [WriteEventOf(e, now)]);
    PersistKeepsApproved(cfg, c, e, []);
    assert c.ledger + [] == c.ledger;
  }

  lemma StepKeepsInv(cfg: CacheConfig, c: Cache, step: CacheStep)
    requires CacheInv(cfg, c)
    ensures CacheInv(cfg, Next(cfg, c, step))
  {
    StepsPersist(cfg, c, step);
    if OnlyLogs(c, Next(cfg, c, step)) {
      LoggingKeepsInv(cfg, c, Next(cfg, c, step));
    } else if Next(cfg, c, step) == Reopened(c) {
      ReopeningKeepsInv(cfg, c);
    } else {
      var e, now, io :| MayPersist(Current(cfg, c), c.storage, e) && Next(cfg, c, step) == Persisted(c, e, now, io);
      PersistKeepsInv(cfg, c, e, now, io);
    }
  }

  /**
   With operations one at a time, and whatever writes fail: no metadata has both outcomes, every verified entry has its
   unverified source with the same payload and metadata, every write on record is stored, and every sensitive entry
   belongs to a task with an approval on record.
   */
  lemma {:induction false} EveryCacheRunIsSafe(cfg: CacheConfig, steps: seq<CacheStep>)
    ensures CacheInv(cfg, RunFrom(cfg, EMPTY_CACHE, steps))
  {
    if steps != [] {
      var front := steps[..|steps| - 1];
      EveryCacheRunIsSafe(cfg, front);
      StepKeepsInv(cfg, RunFrom(cfg, EMPTY_CACHE, front), steps[|steps| - 1]);
    }
  }

  // ---- Approvals ----

  predicate NoneReopens(steps: seq<CacheStep>) {
    forall i | 0 <= i < |steps| :: !steps[i].Reopen?
  }

  /** The last decision of these steps on a task's use of the cache for sensitive data. */
  function LastDecision(steps: seq<CacheStep>, taskId: string): Option<Decision> {
    if steps == [] then None
    else
      var last := steps[|steps| - 1];
      if last.Decide? && last.taskId == taskId && last.scope == SENSITIVE_CACHE then Some(last.decision)
      else LastDecision(steps[..|steps| - 1], taskId)
  }

  /** The decisions that the ledger holds and those that the process knows of are the same as before. */
  predicate SameDecisions(c: Cache, d: Cache) {
    d.approvals == c.approvals && ApprovalsFrom(d.ledger) == ApprovalsFrom(c.ledger)
  }

  lemma ApprovalsAppend(ledger: seq<LedgerEvent>, event: LedgerEvent)
    ensures ApprovalsFrom(ledger + [event])
            == if event.ApprovalEvent? then ApprovalsFrom(ledger)[(event.taskId, event.scope) := event.decision]
               else ApprovalsFrom(ledger)
  {
    assert (ledger + [event])[..|ledger|] == ledger;
  }

  lemma NoteKeepsDecisions(c: Cache, note: Note, key: CacheKey, namespace: Namespace, io: AuditIo, n: nat)
    ensures SameDecisions(c, AfterNote(c, note, key, namespace, io, n))
  {
    ApprovalsAppend(c.ledger, EventOf(note, key, namespace, io.stamp(n)));
  }

  lemma DecisionsKeptTwice(a: Cache, b: Cache, c: Cache)
    requires SameDecisions(a, b) && SameDecisions(b, c)
    ensures SameDecisions(a, c)
  {
  }

  lemma {:induction false} NotesKeepDecisions(
      c: Cache, notes: seq<Note>, key: CacheKey, namespace: Namespace, io: AuditIo, n: nat)
    ensures SameDecisions(c, AfterNotes(c, notes, key, namespace, io, n))
    decreases |notes|
  {
    if notes != [] {
      var noted := AfterNote(c, notes[0], key, namespace, io, n);
      NoteKeepsDecisions(c, notes[0], key, namespace, io, n);
      if n < io.appends {
        NotesKeepDecisions(noted, notes[1..], key, namespace, io, n + 1);
        DecisionsKeptTwice(c, noted, AfterNotes(noted, notes[1..], key, namespace, io, n + 1));
      }
    }
  }

  lemma LookupsKeepDecisions(
      cfg: CacheConfig, c: Cache, key: CacheKey, metadata: Metadata, time: Option<int>, io: AuditIo)
    ensures SameDecisions(c, AfterLookup(cfg, c, key, metadata, time, io))
    ensures SameDecisions(c, AfterNegativeLookup(cfg, c, key, metadata, time, io))
  {
    NoteKeepsDecisions(c, LOOK, key, VerifiedArtifact, io, 0);
    NoteKeepsDecisions(c, LOOK, key, NegativeOutcome, io, 0);
    NotesKeepDecisions(LookNoted(c, key, VerifiedArtifact, io), NotesOf(Found(cfg, c, key, metadata, time, io)), key,
                       VerifiedArtifact, io, 1);
    NotesKeepDecisions(LookNoted(c, key, NegativeOutcome, io),
                       NotesOfNegative(FoundNegative(cfg, c, key, metadata, time, io)), key, NegativeOutcome, io, 1);
  }

  lemma PersistKeepsDecisions(c: Cache, e: Entry, now: int, io: PersistIo)
    ensures SameDecisions(c, Persisted(c, e, now, io))
  {
    ApprovalsAppend(c.ledger, WriteEventOf(e, now));
  }

  /** Only decisions and openings change what is decided. */
  lemma StepKeepsDecisions(cfg: CacheConfig, c: Cache, step: CacheStep)
    requires !step.Decide? && !step.Reopen?
    ensures SameDecisions(c, Next(cfg, c, step))
  {
    if IsOperation(step) {
      if Next(cfg, c, step) != c {
        OperationPersists(cfg, c, step);
        PersistKeepsDecisions(c, Finalize(cfg, step.input).value, step.now, step.io);
      }
    } else {
      LookupsKeepDecisions(Current(cfg, c), c, step.key, step.metadata, step.time, step.audit);
    }
  }

  /** What one step changes: a decision the ledger, and nothing what the process knows. */
  lemma StepDecides(cfg: CacheConfig, c: Cache, step: CacheStep, taskId: string)
    requires !step.Reopen?
    ensures Next(cfg, c, step).approvals == c.approvals
    ensures IsApproved(ApprovalsFrom(Next(cfg, c, step).ledger), taskId)
            <==> if step.Decide? && step.taskId == taskId && step.scope == SENSITIVE_CACHE
                 then step.decision == Approved
                 else IsApproved(ApprovalsFrom(c.ledger), taskId)
  {
    if step.Decide? {
      var event := ApprovalEvent(step.eventId, step.occurredAt, step.taskId, step.scope, step.decision);
      ApprovalsAppend(c.ledger, event);
    } else {
      StepKeepsDecisions(cfg, c, step);
    }
  }

  /** Until the next opening the process knows the decisions it has read at this one, and the ledger the last ones. */
  lemma {:induction false} ApprovalsAreThoseOfTheOpening(
      cfg: CacheConfig, c: Cache, later: seq<CacheStep>, taskId: string)
    requires NoneReopens(later)
    ensures RunFrom(cfg, Reopened(c), later).approvals == ApprovalsFrom(c.ledger)
    ensures IsApproved(ApprovalsFrom(RunFrom(cfg, Reopened(c), later).ledger), taskId)
            <==> match LastDecision(later, taskId)
                 case None => IsApproved(ApprovalsFrom(c.ledger), taskId)
                 case Some(decision) => decision == Approved
  {
    if later != [] {
      var front, last := later[..|later| - 1], later[|later| - 1];
      ApprovalsAreThoseOfTheOpening(cfg, c, front, taskId);
      StepDecides(cfg, RunFrom(cfg, Reopened(c), front), last, taskId);
    }
  }

  /**
   In every run since an opening: what the process takes for approved is what the ledger says exactly when nothing was
   decided since, or the last decision comes to what was read at the opening.
   */
  lemma ApprovalIsCurrentIff(cfg: CacheConfig, c: Cache, later: seq<CacheStep>, taskId: string)
    requires NoneReopens(later)
    ensures var d := RunFrom(cfg, Reopened(c), later);
            (IsApproved(d.approvals, taskId) <==> IsApproved(ApprovalsFrom(d.ledger), taskId))
            <==> (LastDecision(later, taskId).None?
                  || (LastDecision(later, taskId).value == Approved <==> IsApproved(ApprovalsFrom(c.ledger), taskId)))
  {
    ApprovalsAreThoseOfTheOpening(cfg, c, later, taskId);
  }

  /** A revoked approval is honoured only after the next opening. */
  lemma RevocationIsSeenOnReopening(cfg: CacheConfig, c: Cache, later: seq<CacheStep>, e: Entry)
    requires NoneReopens(later) && LastDecision(later, e.body.metadata.taskId) == Some(Revoked)
    requires e.body.metadata.sensitive && PersistenceAllowed(Current(cfg, Reopened(c)), e)
    ensures var d := RunFrom(cfg, Reopened(c), later);
            PersistenceAllowed(Current(cfg, d), e) && !PersistenceAllowed(Current(cfg, Reopened(d)), e)
  {
    ApprovalsAreThoseOfTheOpening(cfg, c, later, e.body.metadata.taskId);
  }

  const APPROVED: LedgerEvent := ApprovalEvent("a", 0, "t", SENSITIVE_CACHE, Approved)
  const REVOKED: LedgerEvent := ApprovalEvent("r", 1, "t", SENSITIVE_CACHE, Revoked)

  /** The use of the cache is approved, the runtime is opened, the approval is revoked, and an entry is begun. */
  function RevokedRun(body: Body): seq<CacheStep> {
    [Decide("a", 0, "t", SENSITIVE_CACHE, Approved), Reopen, Decide("r", 1, "t", SENSITIVE_CACHE, Revoked),
     Begin(body, 2, Complete)]
  }

  lemma RunOneMore(cfg: CacheConfig, steps: seq<CacheStep>, k: nat)
    requires k < |steps|
    ensures RunFrom(cfg, EMPTY_CACHE, steps[..k + 1]) == Next(cfg, RunFrom(cfg, EMPTY_CACHE, steps[..k]), steps[k])
  {
    assert steps[..k + 1][..k] == steps[..k];
  }

  lemma ApprovalIsLogged(cfg: CacheConfig, body: Body)
    ensures RunFrom(cfg, EMPTY_CACHE, RevokedRun(body)[..1]) == Cache([], [APPROVED], map[], map[])
  {
    assert RevokedRun(body)[..0] == [];
    RunOneMore(cfg, RevokedRun(body), 0);
    assert [] + [APPROVED] == [APPROVED];
  }

  lemma ApprovalIsRead()
    ensures Reopened(Cache([], [APPROVED], map[], map[]))
            == Cache([], [APPROVED], map[], map[("t", SENSITIVE_CACHE) := Approved])
    ensures !IsApproved(ApprovalsFrom([APPROVED, REVOKED]), "t")
  {
    assert [] + [APPROVED] == [APPROVED] && [APPROVED] + [REVOKED] == [APPROVED, REVOKED];
    ApprovalsAppend([], APPROVED);
    ApprovalsAppend([APPROVED], REVOKED);
    KnownAppend([], APPROVED);
  }

  lemma ApprovedThenRevoked(cfg: CacheConfig, body: Body)
    ensures RunFrom(cfg, EMPTY_CACHE, RevokedRun(body)[..3])
            == Cache([], [APPROVED, REVOKED], map[], map[("t", SENSITIVE_CACHE) := Approved])
  {
    ApprovalIsLogged(cfg, body);
    ApprovalIsRead();
    RunOneMore(cfg, RevokedRun(body), 1);
    RunOneMore(cfg, RevokedRun(body), 2);
    assert [APPROVED] + [REVOKED] == [APPROVED, REVOKED];
  }

  lemma NothingStored(cfg: CacheConfig, namespace: Namespace, key: CacheKey)
    ensures Inspected(cfg, [], namespace, key) == Empty
  {
    RevisionsAreStored([], namespace, key);
  }

  /** Any valid sensitive entry of the task that can begin a lineage is stored although its approval was revoked. */
  lemma RevokedEntryIsStored(cfg: CacheConfig, body: Body)
    requires cfg.sensitiveReady && ValidBody(cfg, body) && body.state == Pending
    requires body.metadata.sensitive && body.metadata.taskId == "t"
    ensures var d := RunFrom(cfg, EMPTY_CACHE, RevokedRun(body));
            d.storage == [Entry(cfg.hash(body), body)] && !IsApproved(ApprovalsFrom(d.ledger), "t")
  {
    var steps := RevokedRun(body);
    ApprovedThenRevoked(cfg, body);
    ApprovalIsRead();
    RunOneMore(cfg, steps, 3);
    assert steps[..4] == steps;
    var c, e := RunFrom(cfg, EMPTY_CACHE, steps[..3]), Entry(cfg.hash(body), body);
    NothingStored(Current(cfg, c), body.namespace, body.key);
    assert Next(cfg, c, steps[3]) == Persisted(c, e, 2, Complete);
    ApprovalsAppend(c.ledger, WriteEventOf(e, 2));
  }

  // ---- Memory and ledger ----

  /** No append of the step fails with its event left in the ledger. */
  predicate IsHeard(step: CacheStep) {
    match step
    case Reopen => true
    case Decide(_, _, _, _, _) => true
    case LookUp(_, _, _, audit) => !audit.kept
    case LookUpNegative(_, _, _, audit) => !audit.kept
    case _ => !step.io.FlushFails?
  }

  lemma KnownAppend(ledger: seq<LedgerEvent>, event: LedgerEvent)
    ensures KnownFrom(ledger + [event])
            == if event.ApprovalEvent? then KnownFrom(ledger) else KnownFrom(ledger)[event.eventId := event]
  {
    assert (ledger + [event])[..|ledger|] == ledger;
  }

  lemma {:induction false} NotesKeepKnown(
      c: Cache, notes: seq<Note>, key: CacheKey, namespace: Namespace, io: AuditIo, n: nat)
    requires c.known == KnownFrom(c.ledger) && !io.kept
    ensures var d := AfterNotes(c, notes, key, namespace, io, n); d.known == KnownFrom(d.ledger)
    decreases |notes|
  {
    if notes != [] && n < io.appends {
      KnownAppend(c.ledger, EventOf(notes[0], key, namespace, io.stamp(n)));
      NotesKeepKnown(AfterNote(c, notes[0], key, namespace, io, n), notes[1..], key, namespace, io, n + 1);
    }
  }

  lemma LookupsKeepKnown(cfg: CacheConfig, c: Cache, key: CacheKey, metadata: Metadata, time: Option<int>, io: AuditIo)
    requires c.known == KnownFrom(c.ledger) && !io.kept
    ensures var d := AfterLookup(cfg, c, key, metadata, time, io); d.known == KnownFrom(d.ledger)
    ensures var d := AfterNegativeLookup(cfg, c, key, metadata, time, io); d.known == KnownFrom(d.ledger)
  {
    KnownAppend(c.ledger, EventOf(LOOK, key, VerifiedArtifact, io.stamp(0)));
    KnownAppend(c.ledger, EventOf(LOOK, key, NegativeOutcome, io.stamp(0)));
    NotesKeepKnown(LookNoted(c, key, VerifiedArtifact, io), NotesOf(Found(cfg, c, key, metadata, time, io)), key,
                   VerifiedArtifact, io, 1);
    NotesKeepKnown(LookNoted(c, key, NegativeOutcome, io),
                   NotesOfNegative(FoundNegative(cfg, c, key, metadata, time, io)), key, NegativeOutcome, io, 1);
  }

  lemma PersistKeepsKnown(c: Cache, e: Entry, now: int, io: PersistIo)
    requires c.known == KnownFrom(c.ledger) && !io.FlushFails?
    ensures Persisted(c, e, now, io).known == KnownFrom(Persisted(c, e, now, io).ledger)
  {
    KnownAppend(c.ledger, WriteEventOf(e, now));
  }

  lemma HeardStepKeepsKnown(cfg: CacheConfig, c: Cache, step: CacheStep)
    requires c.known == KnownFrom(c.ledger) && IsHeard(step)
    ensures Next(cfg, c, step).known == KnownFrom(Next(cfg, c, step).ledger)
  {
    match step
    case Reopen =>
    case LookUp(key, metadata, time, audit) => LookupsKeepKnown(Current(cfg, c), c, key, metadata, time, audit);
    case LookUpNegative(key, metadata, time, audit) => LookupsKeepKnown(Current(cfg, c), c, key, metadata, time, audit);
    case Decide(eventId, occurredAt, taskId, scope, decision) =>
      KnownAppend(c.ledger, ApprovalEvent(eventId, occurredAt, taskId, scope, decision));
    case _ =>
      if Next(cfg, c, step) != c {
        OperationPersists(cfg, c, step);
        PersistKeepsKnown(c, Finalize(cfg, step.input).value, step.now, step.io);
      }
  }

  /** As long as every event in the ledger is heard of, the running process knows what a restarted one would know. */
  lemma {:induction false} MemoryIsReadBack(cfg: CacheConfig, steps: seq<CacheStep>)
    requires forall i | 0 <= i < |steps| :: IsHeard(steps[i])
    ensures RunFrom(cfg, EMPTY_CACHE, steps).known == KnownFrom(RunFrom(cfg, EMPTY_CACHE, steps).ledger)
  {
    if steps != [] {
      var front := steps[..|steps| - 1];
      MemoryIsReadBack(cfg, front);
      HeardStepKeepsKnown(cfg, RunFrom(cfg, EMPTY_CACHE, front), steps[|steps| - 1]);
    }
  }

  // ---- A lost write event stays lost ----

  /** No operation stores an entry a second time. */
  lemma PersistedEntryIsNew(cfg: CacheConfig, c: Cache, e: Entry)
    requires CacheInv(cfg, c) && MayPersist(Current(cfg, c), c.storage, e)
    ensures e !in c.storage
  {
    if parent :| MayStoreUnverified(Current(cfg, c), c.storage, parent, e) {
      ParentOfStoredIsNotHead(Current(cfg, c), c.storage, parent, e);
    } else {
      VacantMeansNone(Current(cfg, c), c.storage, e.body.namespace, e);
    }
  }

  lemma ParentOfStoredIsNotHead(cfg: CacheConfig, storage: seq<Entry>, parent: Entry, e: Entry)
    requires IsHead(cfg, storage, parent) && ChildOf(parent, e)
    ensures e !in storage
  {
    var revisions := Revisions(storage, parent.body.namespace, parent.body.key);
    RevisionsAreStored(storage, parent.body.namespace, parent.body.key);
    var chain :| Arranges(chain, revisions, parent.body.namespace) && parent == chain[|chain| - 1];
    SameElements(chain, revisions);
    forall i | 0 <= i < |chain|
      ensures chain[i] != e
    {
      if i == 0 {
        assert parent in chain && parent.hash in Hashes(chain);
      } else {
        assert ValidChild(chain[i - 1], chain[i]);
      }
    }
  }

  ghost predicate Injective(cfg: CacheConfig) {
    forall a, b :: cfg.hash(a) == cfg.hash(b) ==> a == b
  }

  /** Stored, but with no event in the ledger that records it. */
  predicate Unrecorded(c: Cache, e: Entry) {
    e in c.storage && forall event | event in c.ledger :: !Records(event, e)
  }

  lemma NewIsUnrecorded(cfg: CacheConfig, c: Cache, e: Entry)
    requires Injective(cfg) && CacheInv(cfg, c) && ValidEntry(cfg, e) && e !in c.storage
    ensures forall event | event in c.ledger :: !Records(event, e)
  {
    forall event | event in c.ledger && event.WriteEvent?
      ensures !Records(event, e)
    {
      var stored :| stored in c.storage && Records(event, stored);
      if Records(event, e) {
        SameRecordSameEntry(cfg, event, stored, e);
      }
    }
  }

  lemma SameRecordSameEntry(cfg: CacheConfig, event: LedgerEvent, a: Entry, b: Entry)
    requires Injective(cfg) && ValidEntry(cfg, a) && ValidEntry(cfg, b) && Records(event, a) && Records(event, b)
    ensures a == b
  {
    assert a.hash == b.hash;
  }

  lemma LoggingKeepsUnrecorded(c: Cache, d: Cache, e: Entry)
    requires Unrecorded(c, e) && OnlyLogs(c, d)
    ensures Unrecorded(d, e)
  {
    assert d.ledger == c.ledger + d.ledger[|c.ledger|..];
  }

  lemma PersistKeepsUnrecorded(cfg: CacheConfig, c: Cache, other: Entry, now: int, io: PersistIo, e: Entry)
    requires Injective(cfg) && CacheInv(cfg, c) && Unrecorded(c, e)
    requires MayPersist(Current(cfg, c), c.storage, other)
    ensures Unrecorded(Persisted(c, other, now, io), e)
  {
    PersistedEntryIsNew(cfg, c, other);
    var event := WriteEventOf(other, now);
    assert Records(event, other);
    if Records(event, e) {
      SameRecordSameEntry(cfg, event, other, e);
    }
    StoredIsUnion(c.storage, other);
  }

  lemma StepKeepsUnrecorded(cfg: CacheConfig, c: Cache, step: CacheStep, e: Entry)
    requires Injective(cfg) && CacheInv(cfg, c) && Unrecorded(c, e)
    ensures Unrecorded(Next(cfg, c, step), e)
  {
    StepsPersist(cfg, c, step);
    if OnlyLogs(c, Next(cfg, c, step)) {
      LoggingKeepsUnrecorded(c, Next(cfg, c, step), e);
    } else if Next(cfg, c, step) != Reopened(c) {
      var other, now, io :| MayPersist(Current(cfg, c), c.storage, other)
        && Next(cfg, c, step) == Persisted(c, other, now, io);
      PersistKeepsUnrecorded(cfg, c, other, now, io, e);
    }
  }

  lemma {:induction false} UnrecordedStays(cfg: CacheConfig, c: Cache, later: seq<CacheStep>, e: Entry)
    requires Injective(cfg) && CacheInv(cfg, c) && Unrecorded(c, e)
    ensures CacheInv(cfg, RunFrom(cfg, c, later)) && Unrecorded(RunFrom(cfg, c, later), e)
  {
    if later != [] {
      var front := later[..|later| - 1];
      UnrecordedStays(cfg, c, front, e);
      StepKeepsUnrecorded(cfg, RunFrom(cfg, c, front), later[|later| - 1], e);
      StepKeepsInv(cfg, RunFrom(cfg, c, front), later[|later| - 1]);
    }
  }

  /**
   After a crash between the two writes of an entry, or a conflict about the identifier of its write event, no lookup
   in any continuation of the run, restarts included, ever serves that entry.
   */
  lemma CrashedEntryIsNeverServed(
      cfg: CacheConfig, before: seq<CacheStep>, e: Entry, written: int, io: PersistIo, later: seq<CacheStep>,
      key: CacheKey, metadata: Metadata, now: Option<int>, audit: AuditIo)
    requires Injective(cfg)
    requires var c := RunFrom(cfg, EMPTY_CACHE, before);
             && MayPersist(Current(cfg, c), c.storage, e)
             && (io.LedgerFails? || (!io.StorageFails? && e.body.provenance.writeEventId in c.known))
    ensures var c := RunFrom(cfg, Persisted(RunFrom(cfg, EMPTY_CACHE, before), e, written, io), later);
            !Serves(Answer(Current(cfg, c), c, key, metadata, now, audit),
                    NegativeAnswer(Current(cfg, c), c, key, metadata, now, audit), e)
  {
    EveryCacheRunIsSafe(cfg, before);
    var c := RunFrom(cfg, EMPTY_CACHE, before);
    PersistedEntryIsNew(cfg, c, e);
    NewIsUnrecorded(cfg, c, e);
    PersistKeepsInv(cfg, c, e, written, io);
    var crashed := Persisted(c, e, written, io);
    UnrecordedStays(cfg, crashed, later, e);
    var d := RunFrom(cfg, crashed, later);
    UnrecordedIsNotServed(Current(cfg, d), d, e, key, metadata, now, audit);
  }
}
