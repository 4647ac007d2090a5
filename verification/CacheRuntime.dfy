/**
 The verified cache: a lineage begins pending, becomes unverified, and ends verified or negative.
 Storage and ledger are written one after the other, so a crash can separate them.
 */
module CacheRuntime {
  import opened Prelude
  import opened CacheLineage
  import opened CacheEvidence

  datatype Action = Look | Serve | ServeNegative | Reuse | ReportMiss | Invalidate | Quarantine

  datatype Decision = Approved | Denied | Revoked

  /** What an event says of an entry. */
  datatype Reference = Reference(entryHash: string, state: State, resultHash: Option<string>)

  /** The durable records of writes, of what lookups do, and of decisions that people take elsewhere. */
  datatype LedgerEvent =
    | WriteEvent(eventId: string, occurredAt: int, key: CacheKey, namespace: Namespace, written: Reference,
                 reasonCode: Option<string>)
    | ActionEvent(eventId: string, occurredAt: int, key: CacheKey, namespace: Namespace, action: Action,
                  about: Option<Reference>, reasonCode: Option<string>)
    | ApprovalEvent(eventId: string, occurredAt: int, taskId: string, scope: string, decision: Decision)

  datatype NegativePolicy = NegativePolicy(ttlMs: Option<int>, allowedTransientCodes: set<string>)

  /**
   Configuration and collaborators. `hash` stands for the content hash and `safe` for the schema and content scans;
   `authorize` and `opens` are the injected authority and codec; the decisions per task and scope are read at opening.
   */
  datatype CacheConfig = CacheConfig(
    hash: Body -> string, safe: Body -> bool,
    verification: Option<EvidenceContext>, configHash: string, authorize: Evidence -> bool,
    sensitiveReady: bool, opens: Payload -> Option<string>, negative: Option<NegativePolicy>,
    approvals: map<(string, string), Decision>)

  datatype Cache = Cache(
    storage: seq<Entry>, ledger: seq<LedgerEvent>, known: map<string, LedgerEvent>,
    approvals: map<(string, string), Decision>)

  const SENSITIVE_CACHE := "sensitive-cache"

  // ---- Entries ----

  function ResultHash(b: Body): Option<string> {
    if b.payload.Some? then Some(b.payload.value.resultHash) else None
  }

  predicate NamespaceFits(b: Body) {
    match b.state
    case Verified => b.namespace == VerifiedArtifact
    case Negative => b.namespace == NegativeOutcome
    case Quarantined => true
    case _ => b.namespace == ProviderRequest
  }

  predicate ContentFits(b: Body) {
    match b.state
    case Pending => b.payload.None? && b.evidence.None? && b.reason.None?
    case Unverified => b.payload.Some? && b.evidence.None? && b.reason.None?
    case Verified =>
      b.payload.Some? && b.evidence.Some? && b.reason.None? && b.provenance.producer == VerificationAuthority
    case _ => b.payload.None? && b.evidence.None? && b.reason.Some?
  }

  predicate ProtectionFits(b: Body) {
    if b.metadata.sensitive then
      b.persistenceApproved && b.metadata.hmacProtected && (b.payload.Some? ==> b.payload.value.sealed)
    else !b.persistenceApproved && (b.payload.Some? ==> !b.payload.value.sealed)
  }

  predicate ValidBody(cfg: CacheConfig, b: Body) {
    && cfg.safe(b)
    && b.key == CacheKey(b.namespace, b.metadata)
    && b.expiresAt > b.createdAt
    && ProtectionFits(b) && NamespaceFits(b) && ContentFits(b)
    && (b.evidence.Some? ==> ParsesEvidence(b.evidence.value))
  }

  predicate ValidEntry(cfg: CacheConfig, e: Entry) {
    ValidBody(cfg, e.body) && e.hash == cfg.hash(e.body)
  }

  function Finalize(cfg: CacheConfig, input: Body): Option<Entry> {
    if ValidBody(cfg, input) then Some(Entry(cfg.hash(input), input)) else None
  }

  predicate IsApproved(approvals: map<(string, string), Decision>, taskId: string) {
    (taskId, SENSITIVE_CACHE) in approvals && approvals[(taskId, SENSITIVE_CACHE)] == Approved
  }

  predicate PersistenceAllowed(cfg: CacheConfig, e: Entry) {
    e.body.metadata.sensitive ==>
      && e.body.metadata.hmacProtected && e.body.persistenceApproved
      && cfg.sensitiveReady && IsApproved(cfg.approvals, e.body.metadata.taskId)
  }

  // ---- Inspection ----

  /** Revisions are filed under their namespace and key. */
  function Revisions(storage: seq<Entry>, namespace: Namespace, key: CacheKey): seq<Entry> {
    Select(storage, (e: Entry) => e.body.namespace == namespace && e.body.key == key)
  }

  datatype Inspection = Empty | Ready(head: Entry) | InQuarantine(quarantined: Option<Entry>) | Unreadable

  predicate Readable(cfg: CacheConfig, revisions: seq<Entry>) {
    forall e | e in revisions :: ValidEntry(cfg, e)
  }

  ghost function Inspected(cfg: CacheConfig, storage: seq<Entry>, namespace: Namespace, key: CacheKey): Inspection {
    var revisions := Revisions(storage, namespace, key);
    if !Readable(cfg, revisions) then Unreadable
    else if revisions == [] then Empty
    else
      match HeadOf(revisions, namespace)
      case None => InQuarantine(None)
      case Some(head) => if head.body.state == Quarantined then InQuarantine(Some(head)) else Ready(head)
  }

  // ---- What each operation checks ----

  ghost predicate IsHead(cfg: CacheConfig, storage: seq<Entry>, e: Entry) {
    Inspected(cfg, storage, e.body.namespace, e.body.key) == Ready(e)
  }

  /** No revision is stored in a namespace for an entry's metadata. */
  ghost predicate Vacant(cfg: CacheConfig, storage: seq<Entry>, namespace: Namespace, e: Entry) {
    Inspected(cfg, storage, namespace, CacheKey(namespace, e.body.metadata)) == Empty
  }

  predicate DerivedFrom(parent: Entry, child: Entry) {
    && child.body.parentHash == Some(parent.hash)
    && child.body.provenance.lineageId == parent.body.provenance.lineageId
    && child.body.provenance.sourceKey == Some(parent.body.key)
    && child.body.provenance.sourceHash == Some(parent.hash)
  }

  ghost predicate MayBegin(cfg: CacheConfig, storage: seq<Entry>, e: Entry) {
    PersistenceAllowed(cfg, e) && e.body.state == Pending && Vacant(cfg, storage, e.body.namespace, e)
  }

  ghost predicate MayStoreUnverified(cfg: CacheConfig, storage: seq<Entry>, parent: Entry, e: Entry) {
    && ValidEntry(cfg, parent)
    && PersistenceAllowed(cfg, e) && e.body.state == Unverified
    && IsHead(cfg, storage, parent)
    && ChildOf(parent, e)
    && Vacant(cfg, storage, NegativeOutcome, e)
    && AllowedTransition(Some(parent.body.state), Unverified)
  }

  ghost predicate MayPublish(cfg: CacheConfig, storage: seq<Entry>, parent: Entry, e: Entry) {
    && cfg.verification.Some?
    && ValidEntry(cfg, parent)
    && IsHead(cfg, storage, parent) && parent.body.state == Unverified
    && PersistenceAllowed(cfg, e) && e.body.state == Verified && e.body.namespace == VerifiedArtifact
    && DerivedFrom(parent, e) && e.body.provenance.producer == VerificationAuthority
    && parent.body.metadata == e.body.metadata && parent.body.payload == e.body.payload
    && Vacant(cfg, storage, NegativeOutcome, e)
    && e.body.evidence.Some? && AcceptsEvidence(e.body.evidence.value, cfg.verification.value)
    && cfg.authorize(e.body.evidence.value)
    && e.body.metadata.configHash == cfg.configHash
    && e.body.metadata.profileHash == cfg.verification.value.profileHash
    && Vacant(cfg, storage, e.body.namespace, e)
  }

  predicate NegativeAllowed(cfg: CacheConfig, e: Entry) {
    && cfg.negative.Some? && cfg.negative.value.ttlMs.Some? && cfg.negative.value.ttlMs.value > 0
    && e.body.expiresAt - e.body.createdAt <= cfg.negative.value.ttlMs.value
    && e.body.reason.Some?
    && e.body.reason.value.code != "provider-outage" && e.body.reason.value.code != "provider-unavailable"
    && (e.body.reason.value.transient ==> e.body.reason.value.code in cfg.negative.value.allowedTransientCodes)
  }

  ghost predicate MayStoreNegative(cfg: CacheConfig, storage: seq<Entry>, parent: Entry, e: Entry) {
    && ValidEntry(cfg, parent)
    && IsHead(cfg, storage, parent) && (parent.body.state == Pending || parent.body.state == Unverified)
    && e.body.state == Negative && e.body.namespace == NegativeOutcome
    && DerivedFrom(parent, e)
    && parent.body.metadata == e.body.metadata
    && PersistenceAllowed(cfg, e)
    && Vacant(cfg, storage, VerifiedArtifact, e)
    && NegativeAllowed(cfg, e)
    && Vacant(cfg, storage, e.body.namespace, e)
  }

  // ---- Persisting ----

  /**
   Storage first, then the ledger; either write may fail, and a crash may come between them. An append that fails may
   nevertheless leave its event in the ledger, when it is only the flush to disk that fails.
   */
  datatype PersistIo = Complete | StorageFails | LedgerFails | FlushFails

  function ReferenceTo(e: Entry): Reference { Reference(e.hash, e.body.state, ResultHash(e.body)) }

  function WriteEventOf(e: Entry, now: int): LedgerEvent {
    WriteEvent(e.body.provenance.writeEventId, now, e.body.key, e.body.namespace, ReferenceTo(e),
               if e.body.reason.Some? then Some(e.body.reason.value.code) else None)
  }

  function Stored(storage: seq<Entry>, e: Entry): seq<Entry> {
    if e in storage then storage else storage + [e]
  }

  function Logged(c: Cache, event: LedgerEvent): Cache { c.(ledger := c.ledger + [event]) }

  function Noted(c: Cache, event: LedgerEvent): Cache { Logged(c, event).(known := c.known[event.eventId := event]) }

  function Persisted(c: Cache, e: Entry, now: int, io: PersistIo): Cache {
    if io.StorageFails? then c
    else
      var stored, event := c.(storage := Stored(c.storage, e)), WriteEventOf(e, now);
      if event.eventId in c.known || io.LedgerFails? then stored
      else if io.FlushFails? then Logged(stored, event)
      else Noted(stored, event)
  }

  /** Persisting reports success only when the write event is known, or was already known as it is. */
  predicate PersistSucceeds(c: Cache, e: Entry, now: int, io: PersistIo) {
    && !io.StorageFails?
    && (e.body.provenance.writeEventId in c.known ==> c.known[e.body.provenance.writeEventId] == WriteEventOf(e, now))
    && (e.body.provenance.writeEventId !in c.known ==> io.Complete?)
  }

  /** Opening again rebuilds the known events from the ledger; later events win. */
  function KnownFrom(ledger: seq<LedgerEvent>): map<string, LedgerEvent> {
    if ledger == [] then map[]
    else
      var known, last := KnownFrom(ledger[..|ledger| - 1]), ledger[|ledger| - 1];
      if last.ApprovalEvent? then known else known[last.eventId := last]
  }

  /** The last decision for each task and scope. */
  function ApprovalsFrom(ledger: seq<LedgerEvent>): map<(string, string), Decision> {
    if ledger == [] then map[]
    else
      var approvals, last := ApprovalsFrom(ledger[..|ledger| - 1]), ledger[|ledger| - 1];
      if last.ApprovalEvent? then approvals[(last.taskId, last.scope) := last.decision] else approvals
  }

  // ---- Lookups ----

  /** The event says that this entry was written. */
  predicate Records(event: LedgerEvent, e: Entry) {
    event.WriteEvent? && event.key == e.body.key && event.namespace == e.body.namespace
      && event.written == ReferenceTo(e)
  }

  predicate MatchesWriteEvent(c: Cache, e: Entry) {
    var id := e.body.provenance.writeEventId;
    id in c.known && Records(c.known[id], e)
  }

  /** The entry and the reason that are audited with an outcome are not part of the answer to the caller. */
  datatype Lookup =
    | Hit(entry: Entry, content: Option<string>)
    | Miss
    | Invalidated(found: Option<Entry>, why: string)
    | QuarantinedLookup(found: Option<Entry>, why: string)

  /** The content of a hit; a sealed payload that may not or cannot be opened fails. */
  function OpenedContent(cfg: CacheConfig, e: Entry): Result<Option<string>, ()> {
    match e.body.payload
    case None => Ok(None)
    case Some(payload) =>
      if !payload.sealed then Ok(Some(payload.content))
      else if PersistenceAllowed(cfg, e) && cfg.opens(payload).Some? then Ok(cfg.opens(payload))
      else Err(())
  }

  ghost function LookedUp(cfg: CacheConfig, c: Cache, key: CacheKey, metadata: Metadata, now: Option<int>): Lookup {
    if now.None? then Invalidated(None, "invalid-time")
    else
      match Inspected(cfg, c.storage, VerifiedArtifact, key)
      case Unreadable => QuarantinedLookup(None, "invalid-storage")
      case Empty => Miss
      case InQuarantine(head) => QuarantinedLookup(head, "invalid-lineage")
      case Ready(e) =>
        if !Vacant(cfg, c.storage, NegativeOutcome, e) then QuarantinedLookup(Some(e), "terminal-conflict")
        else if e.body.state != Verified || cfg.verification.None? || e.body.evidence.None? then
          Invalidated(Some(e), "verification-unavailable")
        else if !MatchesWriteEvent(c, e) then QuarantinedLookup(Some(e), "unaudited-entry")
        else if e.body.expiresAt <= now.value || e.body.key != key || e.body.metadata != metadata
                || e.body.metadata.configHash != cfg.configHash
                || e.body.metadata.profileHash != cfg.verification.value.profileHash then
          Invalidated(Some(e), "incompatible")
        else if !AcceptsEvidence(e.body.evidence.value, cfg.verification.value) then
          QuarantinedLookup(Some(e), "invalid-evidence")
        else if !cfg.authorize(e.body.evidence.value) then QuarantinedLookup(Some(e), "authority-rejected")
        else
          match OpenedContent(cfg, e)
          case Err(_) => QuarantinedLookup(Some(e), "sensitive-open-failed")
          case Ok(content) => Hit(e, content)
  }

  datatype NegativeLookup =
    | NegativeHit(negative: Entry, code: string)
    | NegativeMiss
    | NegativeInvalidated(found: Option<Entry>, why: string)
    | NegativeQuarantined(found: Option<Entry>, why: string)

  ghost function LookedUpNegative(cfg: CacheConfig, c: Cache, key: CacheKey, metadata: Metadata, now: Option<int>)
    : NegativeLookup
  {
    if now.None? then NegativeInvalidated(None, "invalid-time")
    else
      match Inspected(cfg, c.storage, NegativeOutcome, key)
      case Unreadable => NegativeQuarantined(None, "invalid-storage")
      case Empty => NegativeMiss
      case InQuarantine(head) => NegativeQuarantined(head, "invalid-lineage")
      case Ready(e) =>
        if !Vacant(cfg, c.storage, VerifiedArtifact, e) then NegativeQuarantined(Some(e), "terminal-conflict")
        else if e.body.state != Negative || e.body.reason.None? || !MatchesWriteEvent(c, e) then
          NegativeQuarantined(Some(e), "invalid-negative-entry")
        else if e.body.expiresAt <= now.value || e.body.key != key || e.body.metadata != metadata then
          NegativeInvalidated(Some(e), "expired-or-incompatible")
        else NegativeHit(e, e.body.reason.value.code)
  }

  // ---- The audit of lookups ----

  datatype Note = Note(action: Action, about: Option<Reference>, reason: Option<string>)

  const LOOK := Note(Look, None, None)

  function About(found: Option<Entry>): Option<Reference> {
    if found.Some? then Some(ReferenceTo(found.value)) else None
  }

  function NotesOf(r: Lookup): seq<Note> {
    match r
    case Hit(e, _) => [Note(Serve, Some(ReferenceTo(e)), None), Note(Reuse, Some(ReferenceTo(e)), None)]
    case Miss => [Note(ReportMiss, None, Some("not-found"))]
    case Invalidated(found, why) => [Note(Invalidate, About(found), Some(why))]
    case QuarantinedLookup(found, why) => [Note(Quarantine, About(found), Some(why))]
  }

  function NotesOfNegative(r: NegativeLookup): seq<Note> {
    match r
    case NegativeHit(e, code) => [Note(ServeNegative, Some(ReferenceTo(e)), Some(code))]
    case NegativeMiss => [Note(ReportMiss, None, Some("not-found"))]
    case NegativeInvalidated(found, why) => [Note(Invalidate, About(found), Some(why))]
    case NegativeQuarantined(found, why) => [Note(Quarantine, About(found), Some(why))]
  }

  datatype Stamp = Stamp(eventId: string, occurredAt: int)

  /**
   Identifiers and times of the events of a lookup, and how many appends succeed before one fails; `kept`: the event
   of the failing append is in the ledger nevertheless.
   */
  datatype AuditIo = AuditIo(stamp: nat -> Stamp, appends: nat, kept: bool)

  function EventOf(note: Note, key: CacheKey, namespace: Namespace, stamp: Stamp): LedgerEvent {
    ActionEvent(stamp.eventId, stamp.occurredAt, key, namespace, note.action, note.about, note.reason)
  }

  function AfterNote(c: Cache, note: Note, key: CacheKey, namespace: Namespace, io: AuditIo, n: nat): Cache {
    var event := EventOf(note, key, namespace, io.stamp(n));
    if n < io.appends then Noted(c, event) else if io.kept then Logged(c, event) else c
  }

  /**
   Notes are appended one after another, up to the first failure; the first one is append number `n` of the lookup.
   */
  function AfterNotes(c: Cache, notes: seq<Note>, key: CacheKey, namespace: Namespace, io: AuditIo, n: nat): Cache
    decreases |notes|
  {
    if notes == [] then c
    else
      var noted := AfterNote(c, notes[0], key, namespace, io, n);
      if n < io.appends then AfterNotes(noted, notes[1..], key, namespace, io, n + 1) else noted
  }

  function LookNoted(c: Cache, key: CacheKey, namespace: Namespace, io: AuditIo): Cache {
    AfterNote(c, LOOK, key, namespace, io, 0)
  }

  /** What a lookup finds, once it is noted that it takes place. */
  ghost function Found(
      cfg: CacheConfig, c: Cache, key: CacheKey, metadata: Metadata, now: Option<int>, io: AuditIo): Lookup
  {
    LookedUp(cfg, LookNoted(c, key, VerifiedArtifact, io), key, metadata, now)
  }

  ghost function AfterLookup(
      cfg: CacheConfig, c: Cache, key: CacheKey, metadata: Metadata, now: Option<int>, io: AuditIo)
    : Cache
  {
    var looked := LookNoted(c, key, VerifiedArtifact, io);
    if io.appends == 0 then looked
    else AfterNotes(looked, NotesOf(Found(cfg, c, key, metadata, now, io)), key, VerifiedArtifact, io, 1)
  }

  /** The answer is given only when every note of the lookup was appended. */
  ghost function Answer(cfg: CacheConfig, c: Cache, key: CacheKey, metadata: Metadata, now: Option<int>, io: AuditIo)
    : Option<Lookup>
  {
    var found := Found(cfg, c, key, metadata, now, io);
    if io.appends > |NotesOf(found)| then Some(found) else None
  }

  ghost function FoundNegative(
      cfg: CacheConfig, c: Cache, key: CacheKey, metadata: Metadata, now: Option<int>, io: AuditIo)
    : NegativeLookup
  {
    LookedUpNegative(cfg, LookNoted(c, key, NegativeOutcome, io), key, metadata, now)
  }

  ghost function AfterNegativeLookup(
      cfg: CacheConfig, c: Cache, key: CacheKey, metadata: Metadata, now: Option<int>, io: AuditIo): Cache
  {
    var looked := LookNoted(c, key, NegativeOutcome, io);
    if io.appends == 0 then looked
    else AfterNotes(looked, NotesOfNegative(FoundNegative(cfg, c, key, metadata, now, io)), key, NegativeOutcome, io, 1)
  }

  ghost function NegativeAnswer(
      cfg: CacheConfig, c: Cache, key: CacheKey, metadata: Metadata, now: Option<int>, io: AuditIo)
    : Option<NegativeLookup>
  {
    var found := FoundNegative(cfg, c, key, metadata, now, io);
    if io.appends > |NotesOfNegative(found)| then Some(found) else None
  }

  // ---- The runtime ----

  class VerifiedCacheRuntime {
    const cfg: CacheConfig
    var storage: seq<Entry>
    var ledger: seq<LedgerEvent>
    var known: map<string, LedgerEvent>

    function Contents(): Cache
      reads this
    {
      Cache(storage, ledger, known, cfg.approvals)
    }

    /** Opening reads the cache events and the decisions back from the ledger. */
    constructor (options: CacheConfig, storage: seq<Entry>, ledger: seq<LedgerEvent>)
      ensures cfg == options.(approvals := ApprovalsFrom(ledger))
      ensures Contents() == Cache(storage, ledger, KnownFrom(ledger), ApprovalsFrom(ledger))
    {
      var events: map<string, LedgerEvent>, approvals: map<(string, string), Decision> := map[], map[];
      for i := 0 to |ledger|
        invariant events == KnownFrom(ledger[..i]) && approvals == ApprovalsFrom(ledger[..i])
      {
        var event := ledger[i];
        assert ledger[..i + 1][..i] == ledger[..i];
        if event.ApprovalEvent? {
          approvals := approvals[(event.taskId, event.scope) := event.decision];
        } else {
          events := events[event.eventId := event];
        }
      }
      assert ledger[..|ledger|] == ledger;
      this.cfg := options.(approvals := approvals);
      this.storage := storage;
      this.ledger := ledger;
      this.known := events;
    }

    method Inspect(namespace: Namespace, key: CacheKey) returns (r: Inspection)
      ensures r == Inspected(cfg, storage, namespace, key)
    {
      var revisions := Revisions(storage, namespace, key);
      if !Readable(cfg, revisions) {
        return Unreadable;
      }
      if revisions == [] {
        return Empty;
      }
      var head := ResolveUniqueHead(revisions, namespace);
      if head.None? || head.value.body.state == Quarantined {
        return InQuarantine(head);
      }
      r := Ready(head.value);
    }

    method NoTerminalSibling(e: Entry, namespace: Namespace) returns (ok: bool)
      ensures ok == Vacant(cfg, storage, namespace, e)
    {
      var sibling := Inspect(namespace, CacheKey(namespace, e.body.metadata));
      ok := sibling == Empty;
    }

    method PersistEntry(e: Entry, now: int, io: PersistIo) returns (ok: bool)
      modifies this
      ensures Contents() == Persisted(old(Contents()), e, now, io)
      ensures ok == PersistSucceeds(old(Contents()), e, now, io)
    {
      if io.StorageFails? {
        return false;
      }
      storage := Stored(storage, e);
      var event := WriteEventOf(e, now);
      if event.eventId in known {
        return known[event.eventId] == event;
      }
      if io.LedgerFails? {
        return false;
      }
      ledger := ledger + [event];
      if io.FlushFails? {
        return false;
      }
      known := known[event.eventId := event];
      ok := true;
    }

    method Begin(input: Body, now: int, io: PersistIo) returns (r: Option<Entry>)
      modifies this
      ensures Contents() == AfterBegin(cfg, old(Contents()), input, now, io)
      ensures r.Some? <==> Finalize(cfg, input).Some? && MayBegin(cfg, old(storage), Finalize(cfg, input).value)
                           && PersistSucceeds(old(Contents()), Finalize(cfg, input).value, now, io)
      ensures r.Some? ==> r == Finalize(cfg, input) && r.value in storage
    {
      var finalized := Finalize(cfg, input);
      if finalized.None? {
        return None;
      }
      var e := finalized.value;
      if !PersistenceAllowed(cfg, e) || e.body.state != Pending {
        return None;
      }
      var current := Inspect(e.body.namespace, e.body.key);
      if current != Empty {
        return None;
      }
      var ok := PersistEntry(e, now, io);
      r := if ok then Some(e) else None;
    }

    method StoreUnverified(parent: Entry, input: Body, now: int, io: PersistIo) returns (r: Option<Entry>)
      modifies this
      ensures Contents() == AfterStore(cfg, old(Contents()), parent, input, now, io)
      ensures r.Some? <==>
              Finalize(cfg, input).Some? && MayStoreUnverified(cfg, old(storage), parent, Finalize(cfg, input).value)
                           && PersistSucceeds(old(Contents()), Finalize(cfg, input).value, now, io)
      ensures r.Some? ==> r == Finalize(cfg, input) && r.value in storage
    {
      var finalized := Finalize(cfg, input);
      if !ValidEntry(cfg, parent) || finalized.None? {
        return None;
      }
      var e := finalized.value;
      if !PersistenceAllowed(cfg, e) || e.body.state != Unverified {
        return None;
      }
      var current := Inspect(parent.body.namespace, parent.body.key);
      if current != Ready(parent) || !ChildOf(parent, e) {
        return None;
      }
      var vacant := NoTerminalSibling(e, NegativeOutcome);
      if !vacant || !AllowedTransition(Some(parent.body.state), e.body.state) {
        return None;
      }
      var ok := PersistEntry(e, now, io);
      r := if ok then Some(e) else None;
    }

    /** The checks of a publication, up to the write. */
    method CheckPublication(parent: Entry, input: Body) returns (r: Option<Entry>)
      ensures r == if Finalize(cfg, input).Some? && MayPublish(cfg, storage, parent, Finalize(cfg, input).value)
                   then Finalize(cfg, input) else None
    {
      if cfg.verification.None? || !ValidEntry(cfg, parent) {
        return None;
      }
      var current := Inspect(parent.body.namespace, parent.body.key);
      if current != Ready(parent) || parent.body.state != Unverified {
        return None;
      }
      var finalized := Finalize(cfg, input);
      if finalized.None? {
        return None;
      }
      var e := finalized.value;
      if !PersistenceAllowed(cfg, e) || e.body.state != Verified || e.body.namespace != VerifiedArtifact {
        return None;
      }
      if !DerivedFrom(parent, e) || e.body.provenance.producer != VerificationAuthority
         || parent.body.metadata != e.body.metadata || parent.body.payload != e.body.payload {
        return None;
      }
      var vacant := NoTerminalSibling(e, NegativeOutcome);
      if !vacant || e.body.evidence.None? || !AcceptsEvidence(e.body.evidence.value, cfg.verification.value)
         || !cfg.authorize(e.body.evidence.value) {
        return None;
      }
      if e.body.metadata.configHash != cfg.configHash
         || e.body.metadata.profileHash != cfg.verification.value.profileHash {
        return None;
      }
      var target := Inspect(e.body.namespace, e.body.key);
      r := if target == Empty then Some(e) else None;
    }

    method PublishVerified(parent: Entry, input: Body, now: int, io: PersistIo) returns (r: Option<Entry>)
      modifies this
      ensures Contents() == AfterPublish(cfg, old(Contents()), parent, input, now, io)
      ensures r.Some? <==>
              Finalize(cfg, input).Some? && MayPublish(cfg, old(storage), parent, Finalize(cfg, input).value)
                           && PersistSucceeds(old(Contents()), Finalize(cfg, input).value, now, io)
      ensures r.Some? ==> r == Finalize(cfg, input) && r.value in storage
    {
      var checked := CheckPublication(parent, input);
      if checked.None? {
        return None;
      }
      var ok := PersistEntry(checked.value, now, io);
      r := if ok then checked else None;
    }

    /** The checks of a negative outcome, up to the write. */
    method CheckNegative(parent: Entry, input: Body) returns (r: Option<Entry>)
      ensures r == if Finalize(cfg, input).Some? && MayStoreNegative(cfg, storage, parent, Finalize(cfg, input).value)
                   then Finalize(cfg, input) else None
    {
      if !ValidEntry(cfg, parent) {
        return None;
      }
      var current := Inspect(parent.body.namespace, parent.body.key);
      if current != Ready(parent) || !(parent.body.state == Pending || parent.body.state == Unverified) {
        return None;
      }
      var finalized := Finalize(cfg, input);
      if finalized.None? {
        return None;
      }
      var e := finalized.value;
      if e.body.state != Negative || e.body.namespace != NegativeOutcome || !DerivedFrom(parent, e)
         || parent.body.metadata != e.body.metadata || !PersistenceAllowed(cfg, e) {
        return None;
      }
      var vacant := NoTerminalSibling(e, VerifiedArtifact);
      if !vacant || !NegativeAllowed(cfg, e) {
        return None;
      }
      var target := Inspect(e.body.namespace, e.body.key);
      r := if target == Empty then Some(e) else None;
    }

    method StoreNegative(parent: Entry, input: Body, now: int, io: PersistIo) returns (r: Option<Entry>)
      modifies this
      ensures Contents() == AfterNegative(cfg, old(Contents()), parent, input, now, io)
      ensures r.Some? <==>
              Finalize(cfg, input).Some? && MayStoreNegative(cfg, old(storage), parent, Finalize(cfg, input).value)
                           && PersistSucceeds(old(Contents()), Finalize(cfg, input).value, now, io)
      ensures r.Some? ==> r == Finalize(cfg, input) && r.value in storage
    {
      var checked := CheckNegative(parent, input);
      if checked.None? {
        return None;
      }
      var ok := PersistEntry(checked.value, now, io);
      r := if ok then checked else None;
    }

    method AppendAction(note: Note, key: CacheKey, namespace: Namespace, io: AuditIo, n: nat) returns (ok: bool)
      modifies this
      ensures ok == (n < io.appends) && Contents() == AfterNote(old(Contents()), note, key, namespace, io, n)
    {
      var event := EventOf(note, key, namespace, io.stamp(n));
      ok := n < io.appends;
      if ok || io.kept {
        ledger := ledger + [event];
      }
      if ok {
        known := known[event.eventId := event];
      }
    }

    method AppendActions(notes: seq<Note>, key: CacheKey, namespace: Namespace, io: AuditIo, n: nat) returns (ok: bool)
      modifies this
      ensures Contents() == AfterNotes(old(Contents()), notes, key, namespace, io, n)
      ensures notes != [] ==> ok == (n + |notes| <= io.appends)
      ensures notes == [] ==> ok
    {
      for i := 0 to |notes|
        invariant i > 0 ==> n + i <= io.appends
        invariant AfterNotes(old(Contents()), notes, key, namespace, io, n)
                  == AfterNotes(Contents(), notes[i..], key, namespace, io, n + i)
      {
        assert notes[i..][0] == notes[i] && notes[i..][1..] == notes[i + 1..];
        ok := AppendAction(notes[i], key, namespace, io, n + i);
        if !ok {
          return;
        }
      }
      ok := true;
    }

    method FindVerified(key: CacheKey, metadata: Metadata, now: Option<int>) returns (r: Lookup)
      ensures r == LookedUp(cfg, Contents(), key, metadata, now)
    {
      if now.None? {
        return Invalidated(None, "invalid-time");
      }
      var inspection := Inspect(VerifiedArtifact, key);
      match inspection {
        case Unreadable => return QuarantinedLookup(None, "invalid-storage");
        case Empty => return Miss;
        case InQuarantine(head) => return QuarantinedLookup(head, "invalid-lineage");
        case Ready(e) =>
          var vacant := NoTerminalSibling(e, NegativeOutcome);
          if !vacant {
            return QuarantinedLookup(Some(e), "terminal-conflict");
          }
          if e.body.state != Verified || cfg.verification.None? || e.body.evidence.None? {
            return Invalidated(Some(e), "verification-unavailable");
          }
          if !MatchesWriteEvent(Contents(), e) {
            return QuarantinedLookup(Some(e), "unaudited-entry");
          }
          if e.body.expiresAt <= now.value || e.body.key != key || e.body.metadata != metadata
             || e.body.metadata.configHash != cfg.configHash
             || e.body.metadata.profileHash != cfg.verification.value.profileHash {
            return Invalidated(Some(e), "incompatible");
          }
          if !AcceptsEvidence(e.body.evidence.value, cfg.verification.value) {
            return QuarantinedLookup(Some(e), "invalid-evidence");
          }
          if !cfg.authorize(e.body.evidence.value) {
            return QuarantinedLookup(Some(e), "authority-rejected");
          }
          var content := OpenedContent(cfg, e);
          r := if content.Err? then QuarantinedLookup(Some(e), "sensitive-open-failed") else Hit(e, content.value);
      }
    }

    method LookupVerified(key: CacheKey, metadata: Metadata, now: Option<int>, io: AuditIo) returns (r: Option<Lookup>)
      modifies this
      ensures r == Answer(cfg, old(Contents()), key, metadata, now, io)
      ensures Contents() == AfterLookup(cfg, old(Contents()), key, metadata, now, io)
    {
      var ok := AppendAction(LOOK, key, VerifiedArtifact, io, 0);
      if !ok {
        return None;
      }
      var found := FindVerified(key, metadata, now);
      ok := AppendActions(NotesOf(found), key, VerifiedArtifact, io, 1);
      r := if ok then Some(found) else None;
    }

    method FindNegative(key: CacheKey, metadata: Metadata, now: Option<int>) returns (r: NegativeLookup)
      ensures r == LookedUpNegative(cfg, Contents(), key, metadata, now)
    {
      if now.None? {
        return NegativeInvalidated(None, "invalid-time");
      }
      var inspection := Inspect(NegativeOutcome, key);
      match inspection {
        case Unreadable => return NegativeQuarantined(None, "invalid-storage");
        case Empty => return NegativeMiss;
        case InQuarantine(head) => return NegativeQuarantined(head, "invalid-lineage");
        case Ready(e) =>
          var vacant := NoTerminalSibling(e, VerifiedArtifact);
          if !vacant {
            return NegativeQuarantined(Some(e), "terminal-conflict");
          }
          if e.body.state != Negative || e.body.reason.None? || !MatchesWriteEvent(Contents(), e) {
            return NegativeQuarantined(Some(e), "invalid-negative-entry");
          }
          if e.body.expiresAt <= now.value || e.body.key != key || e.body.metadata != metadata {
            return NegativeInvalidated(Some(e), "expired-or-incompatible");
          }
          r := NegativeHit(e, e.body.reason.value.code);
      }
    }

    method LookupNegative(key: CacheKey, metadata: Metadata, now: Option<int>, io: AuditIo)
      returns (r: Option<NegativeLookup>)
      modifies this
      ensures r == NegativeAnswer(cfg, old(Contents()), key, metadata, now, io)
      ensures Contents() == AfterNegativeLookup(cfg, old(Contents()), key, metadata, now, io)
    {
      var ok := AppendAction(LOOK, key, NegativeOutcome, io, 0);
      if !ok {
        return None;
      }
      var found := FindNegative(key, metadata, now);
      ok := AppendActions(NotesOfNegative(found), key, NegativeOutcome, io, 1);
      r := if ok then Some(found) else None;
    }
  }

  // ---- Operations as state changes ----

  ghost function AfterBegin(cfg: CacheConfig, c: Cache, input: Body, now: int, io: PersistIo): Cache {
    match Finalize(cfg, input)
    case Some(e) => if MayBegin(cfg, c.storage, e) then Persisted(c, e, now, io) else c
    case None => c
  }

  ghost function AfterStore(cfg: CacheConfig, c: Cache, parent: Entry, input: Body, now: int, io: PersistIo): Cache {
    match Finalize(cfg, input)
    case Some(e) => if MayStoreUnverified(cfg, c.storage, parent, e) then Persisted(c, e, now, io) else c
    case None => c
  }

  ghost function AfterPublish(cfg: CacheConfig, c: Cache, parent: Entry, input: Body, now: int, io: PersistIo): Cache {
    match Finalize(cfg, input)
    case Some(e) => if MayPublish(cfg, c.storage, parent, e) then Persisted(c, e, now, io) else c
    case None => c
  }

  ghost function AfterNegative(cfg: CacheConfig, c: Cache, parent: Entry, input: Body, now: int, io: PersistIo): Cache {
    match Finalize(cfg, input)
    case Some(e) => if MayStoreNegative(cfg, c.storage, parent, e) then Persisted(c, e, now, io) else c
    case None => c
  }
}
