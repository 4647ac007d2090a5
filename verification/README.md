# Verification of the AI cost system and the job queue

This project models the core of two parts of the repository in Dafny and proves what they promise:

* `packages/ai-cost-system`, which decides whether an AI request may be made: an event-sourced budget controller over
  an append-only ledger, a cache of verified results, a cheapest-first router, a strict JSON reader and canonical
  printer, and a builder of bounded prompts;
* the durable job protocol shared by `apps/api` (producers) and `apps/worker` (processor).

`dafny verify dfyconfig.toml` checks everything. Classes follow the source's stateful classes; each of their methods
is proved against a specification function, and the properties are proved about those functions and about runs:
sequences of steps that include crashes, failed writes, interleaved callers and other components.

## How the files fit together

* **Budget.** `Money`, `Pricing`: integer money and prices rounded up. `BudgetEvents`: events and scopes.
  `BudgetReplay`: from a log to records and the ten totals, against declarative sums. `BudgetPolicy`: the decisions of
  the controller. `BudgetController` (module `BudgetControl`): the class. `BudgetLimits`: what each decision does to
  the limits. `BudgetRuns`: all runs. `BudgetQuote`: the dry run. `BudgetRestart`: a log that a restart rejects.
* **Cache.** `CacheLineage`: the head of a hash-linked set of revisions. `CacheEvidence`: verification evidence.
  `CacheRuntime`: the class over two stores. `CacheRuns`: all runs.
* **Jobs.** `JobStore`: rows, lists and notifications. `JobProtocol`: the transition system, with a step for each
  transaction. `JobRuns`: terminal rows. `JobProcessor` (module `JobProcessing`): the class. `JobLiveness`: every job
  can end. `Outbox`: the producers.
* **JSON and ledger file.** `JsonLexical`, `JsonGrammar`: texts and trees of RFC 8259 sections 2, 4, 6 and 7.
  `JsonScanner`: the class. `JsonValues`: parsing and printing. `JsonCanonical`: the canonical form.
  `CanonicalStability`: when its text is stable. `LedgerFraming`: records, lines and replay. `LedgerFile`: the write
  loop, the append queue and the replay loops. `LedgerTorn`: torn records.
* **Routing.** `RoutingContracts`, `RoutingState`, `CostRouter`: the contract, the derived state and the specified
  decision. `RouterProperties`: what holds of it. `RouterPasses`: the class that computes it.
* **Context.** `Sorting`, `TextOrder`: sorting, and keeping the first item per key. `ContextIntegrity`: the checks
  before a build. `IntegrityReasons`: which reasons they can give. `DiffCompaction`, `ErrorCompaction`,
  `ContextSelection`: what a build starts from. `PromptBuilder`, `ContextPruning`: the prompt and the pruning loop.

## Where the code does not do what one might expect

Each of these is stated by a lemma, with the exact condition where there is one.

* A completed job can be queued again when two workers run (`TwoWorkersReopenACompletedJob`), or when a single worker
  does not hear of a completion that was committed (`UnheardCompletionIsReopened`); `TerminalLeftExactly` names the
  updates that do it, and `EndsForGoodIff` says the same of whole runs. With one worker that hears of its completions
  it cannot happen (`TerminalIsFinal`).
* The controller looks for used event ids only among the events it has seen, so a log that another component shares
  can become unreplayable (`ReusedIdBlocksRestart`): exactly when some event is added whose identifier is not new to
  the whole log (`ReplayableIffAddsNew`, `RestartIsAccepted`).
* A failed append may leave a part of a record; from then on the ledger cannot be replayed at all
  (`TornRecordIsFinal`); it can be exactly while no record is torn and no identifier repeats (`ReplayableIffUntorn`,
  `ReplayAtAnyMoment`).
* A canonical text is not always stable under reading and printing again, because keys are sorted before they are
  normalised (`AccentedIsNotStable`). It is exactly when normalisation keeps the order of the keys
  (`CanonicalStability.CanonicalTextIsStable`).
* Deduplication of hunks and errors does not look at `critical` (`CriticalHunkIsDropped`, `CriticalTwinIsDropped`,
  `CriticalErrorIsLost`): the one with the least identifier is kept (`HunkIsDroppedIff`, `ErrorIsDroppedIff`), so all
  critical ones are kept exactly when each is the first of those alike (`CriticalHunksAreKeptIff`,
  `CriticalErrorsAreKeptIff`). Fingerprints of errors are taken of texts in NFC, which the kept texts are not put
  into, so errors with different messages can be alike (`CriticalVariantIsDropped`). Deduplication of excerpts does
  look (`CriticalContentIsKept`).
* A diagnostic whose message normalises to the empty string, such as one blank, makes `compactErrors` throw, outside
  the `try` of the build (`CompactOne`, `BlankMessageThrows`, `BlankMessageEndsTheBuild`); for no other message does
  it.
* A build that stops for the integrity of its context may give another reason when its parts come in another order
  (`ReasonDependsOnOrder`); everything else is independent of the order (`BuildIgnoresOrder`). The reason is, too,
  exactly when of the first kind of parts with faults all possible reasons are the same (`OneReasonIff`,
  `ReasonIsFixedIff`, `BuildIgnoresOrderIff`).
* The cache reads approvals at opening only: a revocation is honoured after the next one
  (`RevocationIsSeenOnReopening`, `RevokedEntryIsStored`). Between openings process and ledger agree on a task exactly
  when nothing was decided on it, or the last decision comes to what was read (`ApprovalIsCurrentIff`).
* The membership test on evidence stages is equality only because the lists were checked for repetitions before
  (`SameMembersIsEquality`, `SameMembersNeedsUniqueness`).

## Model

| member | source | states |
|---|---|---|
| `Money.CeilingCostIsLeastCover` | packages/ai-cost-system/src/money.ts:32-43 | The rounded-up price is the least whole number of micros that covers tokens times rate: an amount covers the price exactly when it is at least the computed cost. |
| `Money.CeilingCostMonotone` | packages/ai-cost-system/src/money.ts:32-43 | More tokens or a higher rate never cost less. |
| `Money.SplitCostsAtMostOneMicro` | packages/ai-cost-system/src/money.ts:32-43 | Billing a call in two parts never lowers the price and raises it by at most one micro. |
| `Money.AnySplitIsBounded` | packages/ai-cost-system/src/money.ts:32-43 | Billing a call in n parts costs at least the whole price and at most n - 1 micros more. |
| `Pricing.Charge` | packages/ai-cost-system/src/pricing.ts:89-100 | One charge succeeds exactly when its rate is known (or nothing is charged), its tokens and rate are safe and the new total is safe; the total then grows by the rounded-up price. |
| `Pricing.CalculateCost` | packages/ai-cost-system/src/pricing.ts:87-124 | The running total over input, output, cache-read and cache-write charges is exactly the sum of the four separately rounded charges, and fails exactly when one is not payable, the currency is malformed or the sum is unsafe. |
| `Pricing.CostMonotone` | packages/ai-cost-system/src/pricing.ts:87-124 | A usage with no more tokens of any kind than an affordable one is affordable too and costs no more. |
| `BudgetEvents.KeysSeparateScopes` | packages/ai-cost-system/src/budget.ts:64-71 | For ids without the delimiter two reservations share a total's string key exactly when they share the scope (task, provider, day, month). |
| `BudgetEvents.ScopeKeysOf` | packages/ai-cost-system/src/budget.ts:64-71 | One of the joined keys of a reservation is refused exactly when its task id or its date holds the delimiter; otherwise they are the keys of its scopes. |
| `BudgetEvents.DelimiterWouldMergeScopes` | packages/ai-cost-system/src/budget.ts:64-71 | Without the refusal of the delimiter two different pairs would share a key. |
| `BudgetReplay.Find` | packages/ai-cost-system/src/budget.ts:79-115 | The first record with a reservation id, or the number of records when there is none. |
| `BudgetReplay.RecordsWellFormed` | packages/ai-cost-system/src/budget.ts:79-115 | Whatever log the first replay loop accepts: reservation ids are distinct, every reservation is valid and every settlement is valid for its reservation. |
| `BudgetReplay.CircuitStep` | packages/ai-cost-system/src/budget.ts:116-116 | An event sets the discrepancy circuit exactly when it is an overrun settlement, and no later event clears it. |
| `BudgetReplay.ReplayRecords` | packages/ai-cost-system/src/budget.ts:79-118 | The first loop, over its map, yields exactly the records the event sequence specifies, and the circuit flag; it fails exactly when they are undefined. |
| `BudgetReplay.OrderIndependent` | packages/ai-cost-system/src/budget.ts:119-135 | Whether totals can be formed, and which, depends only on the multiset of records, not on their order. |
| `BudgetReplay.TotalsUnique` | packages/ai-cost-system/src/budget.ts:1047-1060 | At most one set of totals matches the declarative sums over the records. |
| `BudgetReplay.ScopesAreExact` | packages/ai-cost-system/src/budget.ts:1062-1100 | The keys a record is added at are exactly the scopes it falls into, each once. |
| `BudgetReplay.AddAllPointwise` | packages/ai-cost-system/src/budget.ts:1062-1100 | Adding a usage at distinct keys succeeds exactly when it fits at each of them alone, and changes each as if it were added there alone. |
| `BudgetReplay.MutableTotals.constructor` | packages/ai-cost-system/src/budget.ts:1047-1060 | The ten maps start empty. |
| `BudgetReplay.MutableTotals.AddUsage` | packages/ai-cost-system/src/budget.ts:1131-1170 | The checked addition to one usage map: refused exactly on a currency mismatch or an unsafe component; otherwise that entry, and no other, grows. |
| `BudgetReplay.MutableTotals.AddNumber` | packages/ai-cost-system/src/budget.ts:1172-1185 | The checked addition to one counter map: a zero leaves no entry, an unsafe sum is refused. |
| `BudgetReplay.MutableTotals.AddRecord` | packages/ai-cost-system/src/budget.ts:1062-1100 | A record is added to all its totals, or fails exactly when a scope holds the delimiter or one addition does not fit. |
| `BudgetReplay.PlusSafeIsMeterwise` | packages/ai-cost-system/src/budget.ts:1131-1170 | The sum of two usages exists exactly when the currencies agree and no component exceeds 2^53 - 1; it adds component by component. |
| `BudgetReplay.RecordFits` | packages/ai-cost-system/src/budget.ts:1062-1185 | Adding the next record succeeds exactly when all declarative sums including it are safe and each scope keeps one currency. |
| `BudgetReplay.RecordAdded` | packages/ai-cost-system/src/budget.ts:1062-1185 | Totals that match the sums of the records match them again after the next record was added. |
| `BudgetReplay.Include` | packages/ai-cost-system/src/budget.ts:119-135 | One turn of the second loop: a released record is skipped, any other is added, and the totals match the longer list of records. |
| `BudgetReplay.AggregateRecords` | packages/ai-cost-system/src/budget.ts:119-152 | The second loop succeeds exactly when the sums can be formed; each of the ten totals at each key is then the sum over un-released records in that scope (actual when settled, reserved while active), and the active and closed id sets are exact. |
| `BudgetReplay.DeriveBudgetState` | packages/ai-cost-system/src/budget.ts:79-152 | The replayed state is defined exactly when the log is derivable, and is the one the declarative description determines. |
| `BudgetReplay.StateUnique` | packages/ai-cost-system/src/budget.ts:79-152 | Log and recovered ids determine the state. |
| `BudgetPolicy.FirstFailing` | packages/ai-cost-system/src/budget.ts:718-816 | The first check that fails, in order; none exactly when all pass. |
| `BudgetPolicy.ChecksReadOwnScopes` | packages/ai-cost-system/src/budget.ts:718-816 | The limit checks of a reservation depend only on the totals of the scopes it falls into. |
| `BudgetControl.AccountingLedger.Append` | packages/ai-cost-system/src/ledger.ts:51-90 | An append is written, lost or torn; the ledger grows by the event, stays, or is marked torn accordingly, and only a written one is reported as success. |
| `BudgetControl.AccountingLedger.Replay` | packages/ai-cost-system/src/ledger.ts:120-149 | The loop with its four sets of identifiers reads the whole log, and fails exactly when a record is torn or an event, reservation, settlement or approval identifier repeats. |
| `BudgetControl.ChecksReadSums` | packages/ai-cost-system/src/budget.ts:718-816 | The checks over the candidate totals decide as the checks over the declarative sums with the new reservation. |
| `BudgetControl.BudgetController.constructor` | packages/ai-cost-system/src/budget.ts:295-325 | The state of a controller at start-up: the events of the log, every active reservation counted as recovered, no storage failure. |
| `BudgetControl.BudgetController.Initialize` | packages/ai-cost-system/src/budget.ts:305-341 | Start-up succeeds exactly when the prices belong to the configuration, no record is torn, the ledger replays and the budget state can be derived; the controller then starts from that log. |
| `BudgetControl.BudgetController.PrepareReservation` | packages/ai-cost-system/src/budget.ts:429-537 | Refuses with exactly the specified code, or returns the reservation together with the state derived from the log that includes it. |
| `BudgetControl.BudgetController.AppendAndApply` | packages/ai-cost-system/src/budget.ts:645-669 | Append first, then apply: after a written append the events are extended and the candidate state is the derived state; after any other, only the storage flag is set. |
| `BudgetControl.BudgetController.Reserve` | packages/ai-cost-system/src/budget.ts:375-399 | Outcome, new state and ledger are those of the specified decision and write outcome; the class invariant (cached state equals the state derived from the events) is kept. |
| `BudgetControl.BudgetController.Quote` | packages/ai-cost-system/src/budget.ts:401-427 | The quote is the specified decision on the dry-run request and changes nothing (no modifies clause). |
| `BudgetControl.BudgetController.RequireActive` | packages/ai-cost-system/src/budget.ts:818-859 | Refused, with the specified code, exactly when the event or settlement id is used, storage failed or the reservation is not active; otherwise the active reservation is returned. |
| `BudgetControl.BudgetController.AppendSettlement` | packages/ai-cost-system/src/budget.ts:632-643 | A settlement is appended and applied, or fails, and shrinks the set of recovered ids, as specified. |
| `BudgetControl.BudgetController.Settle` | packages/ai-cost-system/src/budget.ts:539-594 | As Reserve, for a settlement. |
| `BudgetControl.BudgetController.Release` | packages/ai-cost-system/src/budget.ts:596-630 | As Reserve, for a release. |
| `BudgetControl.BudgetController.GetState` | packages/ai-cost-system/src/budget.ts:371-373 | The state returned is the one derived from the events. |
| `BudgetControl.ActiveOrClosed` | packages/ai-cost-system/src/budget.ts:119-152 | A recorded reservation is never both active and closed. |
| `BudgetLimits.CapHolds` | packages/ai-cost-system/src/budget.ts:718-816 | When all checks pass, every compared total is at most its configured limit. |
| `BudgetLimits.ReserveKeepsLimits` | packages/ai-cost-system/src/budget.ts:718-816 | A reservation that passes its checks keeps every limited total at most its limit plus the excess of overruns. |
| `BudgetLimits.CloseMoves` | packages/ai-cost-system/src/budget.ts:1102-1129 | Closing a reservation moves each total in its scopes by what is held now minus what was reserved, and no other total. |
| `BudgetLimits.ReleaseUndoesReserve` | packages/ai-cost-system/src/budget.ts:596-630 | A release takes back exactly what its reservation had set aside, in every total. |
| `BudgetLimits.SettledWithinReservation` | packages/ai-cost-system/src/budget.ts:560-567 | Without the overrun flag no limited meter of a settlement exceeds its reservation. |
| `BudgetLimits.CloseKeepsLimits` | packages/ai-cost-system/src/budget.ts:539-630 | Settling or releasing keeps every limited total at most its limit plus the excess of overruns. |
| `BudgetLimits.NoOverrunNoExcess` | packages/ai-cost-system/src/budget.ts:116-116 | While the circuit is closed the excess is zero everywhere. |
| `BudgetRuns.DecisionsAreAdmissible` | packages/ai-cost-system/src/budget.ts:375-643 | Whatever the controller decides to append is a valid next event: fresh ids, within all limits, no automatic reservation behind the circuit or during recovery. |
| `BudgetRuns.StorageFailureIsFinal` | packages/ai-cost-system/src/budget.ts:861-868 | After a failed append no later transition is accepted. |
| `BudgetRuns.RecordsOfBudgetPart` | packages/ai-cost-system/src/budget.ts:79-115 | Events of other components interleaved in the log do not change the replayed records. |
| `BudgetRuns.CircuitIsOverrunInLog` | packages/ai-cost-system/src/budget.ts:116-116 | The circuit is open exactly when the log holds an overrun settlement. |
| `BudgetRuns.AppendKeepsLogSafe` | packages/ai-cost-system/src/budget.ts:645-669 | Any decided event keeps the whole log invariant: derivable, within limits, circuit and recovery rules, distinct ids. |
| `BudgetRuns.NextKeepsInv` | packages/ai-cost-system/src/budget.ts:291-373 | Every step (start, crash, call, begin, append outcome, another component's append) keeps the invariant of log and controller. |
| `BudgetRuns.EveryRunIsSafe` | packages/ai-cost-system/src/budget.ts:291-373 | Every system reached by any run, with failures, crashes, restarts and interleaved appends, satisfies the invariant. |
| `BudgetRuns.LimitSafety` | packages/ai-cost-system/src/budget.ts:718-816 | Over all runs: in the scope of any reservation ever written, every limited total is at most its limit plus the positive overshoot of overrun settlements there, and at most its limit when the log has no overrun. |
| `BudgetRuns.CircuitSafety` | packages/ai-cost-system/src/budget.ts:433-447 | In every log of every run no automatic reservation follows an overrun settlement. |
| `BudgetRuns.RecoverySafety` | packages/ai-cost-system/src/budget.ts:305-341 | A reservation active at a start-up is closed before any automatic reservation is written in that life of the process or a later one. |
| `BudgetRuns.RestartIsAccepted` | packages/ai-cost-system/src/budget.ts:305-341 | Every log a run leaves behind is accepted by the budget replay, and by the ledger's replay exactly when its identifiers are distinct; a restart then succeeds unless a record is torn. |
| `BudgetRuns.ReplayableIffAddsNew` | packages/ai-cost-system/src/budget.ts:837-844 | Step by step: the log of a run stays replayable exactly as long as every event added, by whatever component, has an identifier new to the whole log. |
| `BudgetRuns.MemoryMatchesLog` | packages/ai-cost-system/src/budget.ts:645-669 | While no append has failed, the state in memory is the state derived from the durable log, whatever other components appended in between. |
| `BudgetRuns.EveryRunIsSerial` | packages/ai-cost-system/src/budget.ts:881-890 | Concurrent callers suspended at the append, quotes among them, see the outcomes of a sequential run in call order. |
| `BudgetQuote.KnownIsReserved` | packages/ai-cost-system/src/budget.ts:837-859 | An id is known to the replayed records exactly when a reservation event uses it. |
| `BudgetQuote.RenamedDerivable` | packages/ai-cost-system/src/budget.ts:429-537 | Reservations that differ in ids only are accepted alike by the replay. |
| `BudgetQuote.RenamedChecks` | packages/ai-cost-system/src/budget.ts:718-816 | Ids play no part in the limit checks. |
| `BudgetQuote.QuoteIsExactDryRun` | packages/ai-cost-system/src/budget.ts:401-537 | With the same clock and fresh ids that the schema accepts alike, a quote allows exactly what reserving would append (same cost, tokens, wall time) and denies with the same failure. |
| `BudgetQuote.CostTestIsRedundant` | packages/ai-cost-system/src/budget.ts:560-567 | Without cache tokens and with tokens within the reservation, the cost never exceeds the reserved cost, so the overrun flag depends on wall time alone. |
| `BudgetRestart.ReusedIdBlocksRestart` | packages/ai-cost-system/src/budget.ts:837-844 | A concrete run in which another component's event id is reused by the controller, which looks for ids only among the events it has seen; the ledger's replay then rejects the log. |
| `CacheLineage.ChainUnique` | packages/ai-cost-system/src/cache-runtime.ts:811-867 | Revisions can be arranged as one chain in at most one way. |
| `CacheLineage.HeadIgnoresOrder` | packages/ai-cost-system/src/cache-runtime.ts:811-867 | The head does not depend on the order in which the storage lists the revisions. |
| `CacheLineage.HeadIsLast` | packages/ai-cost-system/src/cache-runtime.ts:811-867 | When the revisions form a chain (distinct hashes, first parent outside the set, right root state, valid links), the head is its last entry. |
| `CacheLineage.WalkNeverReturns` | packages/ai-cost-system/src/cache-runtime.ts:854-866 | The walk along single children never returns to an entry it has passed, so the loop ends. |
| `CacheLineage.WalkEnd` | packages/ai-cost-system/src/cache-runtime.ts:854-866 | A walk that can go no further ends at the head exactly when it has visited every revision: detached cycles give nothing. |
| `CacheLineage.WalkForks` | packages/ai-cost-system/src/cache-runtime.ts:854-866 | A fork gives nothing. |
| `CacheLineage.ChainHasOneRoot` | packages/ai-cost-system/src/cache-runtime.ts:819-825 | A chain has exactly one revision whose parent is outside the set: second roots give nothing. |
| `CacheLineage.ChainLinksAreValid` | packages/ai-cost-system/src/cache-runtime.ts:869-877 | In a chain every link is a valid child with an allowed transition. |
| `CacheLineage.IndexByHash` | packages/ai-cost-system/src/cache-runtime.ts:815-818 | The map holds every revision under its hash. |
| `CacheLineage.IndexChildren` | packages/ai-cost-system/src/cache-runtime.ts:827-842 | The children of every revision; fails exactly when some link is not valid. |
| `CacheLineage.Walk` | packages/ai-cost-system/src/cache-runtime.ts:844-866 | The loop returns the head of the revisions, or nothing. |
| `CacheLineage.ResolveUniqueHead` | packages/ai-cost-system/src/cache-runtime.ts:811-867 | Returns an entry exactly when the revisions can be arranged as one chain, and then its last entry. |
| `CacheEvidence.SameMembersIsEquality` | packages/ai-cost-system/src/verification-evidence.ts:157-166 | Between lists without repetition the one-directional membership test is equality of sets (pigeonhole). |
| `CacheEvidence.SameMembersNeedsUniqueness` | packages/ai-cost-system/src/verification-evidence.ts:157-166 | With repetitions that test is not symmetric. |
| `CacheEvidence.AcceptedEvidenceIsExact` | packages/ai-cost-system/src/verification-evidence.ts:96-141 | Accepted evidence has exactly one record for every required stage, each passed with an allowed command, and no other record. |
| `CacheRuntime.VerifiedCacheRuntime.constructor` | packages/ai-cost-system/src/cache-runtime.ts:104-152 | Opening reads the cache events, later ones winning, and the last decision per task and scope back from the ledger. |
| `CacheRuntime.VerifiedCacheRuntime.Inspect` | packages/ai-cost-system/src/cache-runtime.ts:203-229 | The inspection result is that of the unique head of the stored revisions. |
| `CacheRuntime.VerifiedCacheRuntime.NoTerminalSibling` | packages/ai-cost-system/src/cache-runtime.ts:734-745 | True exactly when nothing is stored in that namespace under the key derived from the entry's metadata. |
| `CacheRuntime.VerifiedCacheRuntime.PersistEntry` | packages/ai-cost-system/src/cache-runtime.ts:688-720 | Storage first, then the ledger: what both stores hold after success, after a failed storage write, after a failed ledger write and after one that fails with its event written. |
| `CacheRuntime.VerifiedCacheRuntime.Begin` | packages/ai-cost-system/src/cache-runtime.ts:154-167 | A pending entry is persisted exactly when the entry is valid, nothing stands in its way and both writes succeed. |
| `CacheRuntime.VerifiedCacheRuntime.StoreUnverified` | packages/ai-cost-system/src/cache-runtime.ts:169-201 | An unverified entry is persisted exactly when its parent is the head, the transition is allowed and both writes succeed. |
| `CacheRuntime.VerifiedCacheRuntime.CheckPublication` | packages/ai-cost-system/src/cache-runtime.ts:231-286 | The checks of a publication accept exactly a derived entry with accepted, authorised evidence and no opposite outcome. |
| `CacheRuntime.VerifiedCacheRuntime.PublishVerified` | packages/ai-cost-system/src/cache-runtime.ts:231-293 | A verified entry is persisted exactly when those checks and both writes succeed. |
| `CacheRuntime.VerifiedCacheRuntime.CheckNegative` | packages/ai-cost-system/src/cache-runtime.ts:295-357 | The checks of a negative outcome. |
| `CacheRuntime.VerifiedCacheRuntime.StoreNegative` | packages/ai-cost-system/src/cache-runtime.ts:295-364 | A negative entry is persisted exactly when those checks and both writes succeed. |
| `CacheRuntime.VerifiedCacheRuntime.LookupVerified` | packages/ai-cost-system/src/cache-runtime.ts:366-545 | The look is appended to the ledger first, then what was found; the answer is the specified one over storage and known events, and is given only when all these appends succeed. |
| `CacheRuntime.VerifiedCacheRuntime.LookupNegative` | packages/ai-cost-system/src/cache-runtime.ts:547-686 | The same for the negative lookup. |
| `CacheRuntime.VerifiedCacheRuntime.AppendAction` | packages/ai-cost-system/src/cache-runtime.ts:747-785 | One audit event is appended and known, or the append fails, possibly with its event in the ledger. |
| `CacheRuntime.VerifiedCacheRuntime.FindVerified` | packages/ai-cost-system/src/cache-runtime.ts:383-528 | What a lookup finds: a hit, a miss, or why the entry is invalid or quarantined, check for check. |
| `CacheRuntime.VerifiedCacheRuntime.FindNegative` | packages/ai-cost-system/src/cache-runtime.ts:563-671 | The same for the negative namespace. |
| `CacheRuns.HitIsSound` | packages/ai-cost-system/src/cache-runtime.ts:366-545 | A hit is stored, valid, verified, unexpired, of the same key and metadata, has its write event and exactly the required stages, all passed; and no valid negative entry has its metadata. |
| `CacheRuns.NegativeHitIsSound` | packages/ai-cost-system/src/cache-runtime.ts:547-686 | The same for a negative hit. |
| `CacheRuns.ContestedIsNeverServed` | packages/ai-cost-system/src/cache-runtime.ts:734-745 | When both outcomes of the same metadata are stored, by whatever race, neither lookup serves. |
| `CacheRuns.UnrecordedIsNotServed` | packages/ai-cost-system/src/cache-runtime.ts:722-732 | An entry without its write event is not served. |
| `CacheRuns.ServedIsRecorded` | packages/ai-cost-system/src/cache-runtime.ts:529-545 | Nothing is served before the look, the hit and the reuse of the very entry are in the ledger, in that order. |
| `CacheRuns.StepsPersist` | packages/ai-cost-system/src/cache-runtime.ts:154-686 | Every step persists one permitted entry, reopens, or at most adds ledger events that are not writes. |
| `CacheRuns.EveryCacheRunIsSafe` | packages/ai-cost-system/src/cache-runtime.ts:104-720 | With operations and lookups one at a time and whatever writes fail: no metadata has both outcomes, every verified entry has a stored unverified source with equal payload and metadata, every write on record is stored, and every sensitive entry belongs to a task with an approval on record. |
| `CacheRuns.MemoryIsReadBack` | packages/ai-cost-system/src/cache-runtime.ts:126-152 | As long as no append fails with its event written, the running process knows what a restarted one would know. |
| `CacheRuns.ApprovalsAreThoseOfTheOpening` | packages/ai-cost-system/src/cache-runtime.ts:126-152 | In every run since an opening the process knows exactly the decisions the ledger held at the opening, while the ledger holds the last decision taken since. |
| `CacheRuns.ApprovalIsCurrentIff` | packages/ai-cost-system/src/cache-runtime.ts:786-805 | So what the process takes for approved agrees with the ledger exactly when nothing was decided on the task since the opening, or the last decision comes to what was read then. |
| `CacheRuns.RevocationIsSeenOnReopening` | packages/ai-cost-system/src/cache-runtime.ts:786-805 | In every run whose last decision on an approved task is a revocation, sensitive entries of the task may still be stored, and no longer after the next opening. |
| `CacheRuns.RevokedEntryIsStored` | packages/ai-cost-system/src/cache-runtime.ts:154-167 | A concrete run that stores any valid, pending, sensitive entry of a task after the approval of the task was revoked. |
| `CacheRuns.PersistedEntryIsNew` | packages/ai-cost-system/src/cache-runtime.ts:688-720 | No operation stores an entry a second time. |
| `CacheRuns.CrashedEntryIsNeverServed` | packages/ai-cost-system/src/cache-runtime.ts:688-732 | After a crash between the two writes of an entry, or a conflict about the id of its write event, no lookup in any continuation of the run, restarts included, serves it. |
| `JobProtocol.TaskKeepsSound` | apps/worker/src/job-processor.ts:78-219 | Every step of every task, each a database transaction or a queue operation, keeps the store sound. |
| `JobProtocol.NextKeepsSound` | apps/worker/src/job-processor.ts:78-248 | So does every step of the system: calls, crashes, time, workers starting. |
| `JobProtocol.EveryRunIsSound` | apps/worker/src/job-processor.ts:78-248 | Any interleaving, any number of workers, any crashes: every id ever pushed to the queue, retry set or dead list has a row, idempotency keys identify rows, non-terminal rows have attempts left, a completed job's handler has committed, and each durable key has at most one notification. |
| `JobProtocol.DeliveredExactlyOnce` | apps/worker/src/handlers/notifications.ts:158-193 | A delivered job has exactly one notification under its durable key. |
| `JobRuns.OneWorkerStep` | apps/worker/src/job-processor.ts:119-202 | With one worker a step changes no terminal row, and a task that handles, completes or fails a job keeps working on a row that is not terminal and has the attempts it loaded. |
| `JobRuns.TerminalIsFinal` | apps/worker/src/job-processor.ts:119-202 | With one worker at a time that hears of the completions it commits, whatever crashes and recoveries there are, a completed or dead row never changes again. |
| `JobRuns.TerminalLeftExactly` | apps/worker/src/job-processor.ts:165-198 | With any number of workers, a step changes the status of a terminal job exactly when it is an unconditional update issued for it: the completion of a dead job, or the failure of a completed job or of one with attempts left; replies lost after a commit included. |
| `JobRuns.TerminalRowIs` | apps/worker/src/job-processor.ts:165-198 | The whole of a terminal row after any step: what a completion or a failure issued for this job writes, or else the row as it was. |
| `JobRuns.EndsForGoodIff` | apps/worker/src/job-processor.ts:119-219 | In a run of any number of workers every job that has ended keeps its status to the end of the run exactly when no step of the run is such an update. |
| `JobRuns.TwoWorkersReopenACompletedJob` | apps/worker/src/job-processor.ts:165-198 | A concrete run of two workers that turns a completed row back to queued. |
| `JobRuns.UnheardCompletionIsReopened` | apps/worker/src/job-processor.ts:154-200 | A concrete run of a single worker whose completion commits without a reply: the catch block counts a failure and queues the completed job again. |
| `JobProcessing.ProcessingChangesOneRow` | apps/worker/src/job-processor.ts:119-202 | Processing changes the claimed job's row only: it ends, or one more attempt is counted and attempts remain. |
| `JobProcessing.ProcessingMakesProgress` | apps/worker/src/job-processor.ts:119-202 | Processing uses up one of the runs left, whatever the handler does, and leaves every other row and the queue alone. |
| `JobProcessing.FailingCounts` | apps/worker/src/job-processor.ts:172-200 | Recording a failure counts one attempt; the job is dead exactly when the error is permanent or attempts are exhausted, else queued with attempts left. |
| `JobProcessing.ResetAllIs` | apps/worker/src/job-processor.ts:204-219 | A tick resets and pushes exactly the due jobs that are alive; terminal rows stay as they are. |
| `JobProcessing.PushedAllIs` | apps/worker/src/job-queue.ts:6-11 | Pushing ids one after another leaves them reversed at the head of the list. |
| `JobProcessing.JobProcessor.RecordFailure` | apps/worker/src/job-processor.ts:172-200 | The catch block, against its specification. |
| `JobProcessing.JobProcessor.ProcessOne` | apps/worker/src/job-processor.ts:119-202 | Load, claim, handle, complete or fail: the new store is the specified one, including the returns for missing, terminal and already claimed jobs. |
| `JobProcessing.JobProcessor.RecoverStale` | apps/worker/src/job-processor.ts:78-90 | Stale processing rows are queued, and pushed one after another. |
| `JobProcessing.JobProcessor.RequeuePending` | apps/worker/src/job-processor.ts:92-117 | Exactly the pending ids whose push is accepted are pushed, and counted. |
| `JobProcessing.JobProcessor.RunScheduler` | apps/worker/src/job-processor.ts:204-219 | Due ids leave the retry set; the alive ones are reset and pushed. |
| `JobLiveness.PollSteps` | apps/worker/src/job-processor.ts:234-239 | One turn of the main loop, step by step, does what processing the popped job does. |
| `JobLiveness.DrainProgress` | apps/worker/src/job-processor.ts:234-239 | Every job that was in the queue makes progress while the worker empties it. |
| `JobLiveness.Restart` | apps/worker/src/job-processor.ts:221-228 | From any sound state: processes die, time passes, the reconciler runs, and no row is left processing. |
| `JobLiveness.Round` | apps/worker/src/job-processor.ts:92-117 | Time, a tick and draining the queue leave strictly fewer runs than before while some job is alive. |
| `JobLiveness.EveryJobCanEnd` | apps/worker/src/job-processor.ts:78-248 | From every state any run has reached, and for every choice of handler outcomes, a finite continuation (restart, time, ticks, polls) brings every job to completed or dead, each recording at most max_attempts - attempts further failures. |
| `Outbox.Producer.InsertJobRow` | apps/api/src/queue/outbox.ts:33-58 | Inserts a row unless the key has one; returns the id to wake, which has a row with that key that is not terminal, or nothing. |
| `Outbox.Producer.WakeJob` | apps/api/src/queue/outbox.ts:60-69 | Pushes the id, or changes nothing when the push fails. |
| `Outbox.Producer.EnqueueJob` | apps/api/src/queue/enqueue.ts:29-67 | Insert, commit, then push the id of a real, pending row. |
| `Outbox.KeyHasOneRow` | apps/api/src/queue/enqueue.ts:35-53 | A second enqueue of a key adds no row and wakes the first one unless it has ended. |
| `JsonGrammar.AcceptedIsDocument` | packages/ai-cost-system/src/json.ts:86-252 | Whatever is accepted is spelled by a tree of the grammar whose objects have no two keys with the same meaning. |
| `JsonGrammar.DocumentIsRead` | packages/ai-cost-system/src/json.ts:86-252 | A text of the grammar is accepted, with its tree, exactly when in no object at any depth two keys decode equal. |
| `JsonGrammar.DocumentUnique` | packages/ai-cost-system/src/json.ts:86-252 | One text, one tree. |
| `JsonScanner.JsonSyntaxScanner.Scan` | packages/ai-cost-system/src/json.ts:86-94 | The scanner accepts exactly the sources that are read as a document, to the last character. |
| `JsonScanner.JsonSyntaxScanner.ScanValue` | packages/ai-cost-system/src/json.ts:96-132 | Advances the position to where the value read there ends, or fails when none is. |
| `JsonScanner.JsonSyntaxScanner.ScanObject` | packages/ai-cost-system/src/json.ts:134-172 | The same for objects, with the set of keys seen so far. |
| `JsonScanner.JsonSyntaxScanner.ScanArray` | packages/ai-cost-system/src/json.ts:174-194 | The same for arrays. |
| `JsonScanner.JsonSyntaxScanner.ScanString` | packages/ai-cost-system/src/json.ts:196-240 | The same for string literals; the key is the decoded literal. |
| `JsonScanner.JsonSyntaxScanner.ScanNumber` | packages/ai-cost-system/src/json.ts:242-252 | The same for numbers. |
| `JsonScanner.JsonSyntaxScanner.Consume` | packages/ai-cost-system/src/json.ts:254-260 | Consumes the character if it stands there. |
| `JsonScanner.JsonSyntaxScanner.SkipWhitespace` | packages/ai-cost-system/src/json.ts:262-266 | Skips the longest run of white space. |
| `JsonValues.EscapedMeans` | packages/ai-cost-system/src/canonical.ts:7-9 | Decoding an escaped string gives the string back, control characters and lone surrogates included. |
| `JsonValues.PrintedIsParsed` | packages/ai-cost-system/src/json.ts:16-35 | Parsing a printed value gives the value back, or refuses it exactly when some object of it has a key twice. |
| `JsonValues.PrintInjective` | packages/ai-cost-system/src/canonical.ts:7-9 | Different values print differently. |
| `JsonCanonical.SameIffCanonicalEqual` | packages/ai-cost-system/src/canonical.ts:11-29 | For normalised values, canonical forms are equal exactly when the values are equal up to the order of members. |
| `JsonCanonical.CanonicalIsSame` | packages/ai-cost-system/src/canonical.ts:11-29 | The canonical form of a normalised value is the value up to the order of members. |
| `JsonCanonical.CanonicalTextIsParsed` | packages/ai-cost-system/src/canonical.ts:7-29 | A canonical text is accepted and read as the canonical form, for every value whose numbers are safe integers, normalised or not. |
| `JsonCanonical.EqualTextsSameValues` | packages/ai-cost-system/src/canonical.ts:7-29 | Equal canonical texts mean equal values up to the order of members, and the other way round, for normalised values. |
| `JsonCanonical.TextIsStableIffSorted` | packages/ai-cost-system/src/canonical.ts:20-25 | Printing what was read back gives the same text exactly when the members of the canonical form are still in order, in every object; keys may repeat. |
| `CanonicalStability.KeysStayAscending` | packages/ai-cost-system/src/canonical.ts:20-25 | In one object: assigned in the order of the raw keys, the normalised keys ascend exactly when, of keys that are each the least with their normal form, a lesser one has the lesser normal form. |
| `CanonicalStability.CanonicalIsSortedIff` | packages/ai-cost-system/src/canonical.ts:11-29 | The canonical form is in order exactly when that holds of every object of the value that no later member replaces. |
| `CanonicalStability.CanonicalTextIsStable` | packages/ai-cost-system/src/canonical.ts:7-29 | Printing what was read back gives the same text exactly when, in every object of the value that no later member with the same normalised key replaces, normalisation keeps the order of the keys: a condition on the value alone. |
| `JsonCanonical.AccentedIsNotStable` | packages/ai-cost-system/src/canonical.ts:20-25 | A concrete key that sorts differently before and after normalisation: its text is not stable. |
| `LedgerFraming.AppendedIsReplayed` | packages/ai-cost-system/src/ledger.ts:92-149 | The file of good events replays to exactly their canonical forms in order, or is rejected for a duplicate, exactly when an event id or an id of a kind repeats. |
| `LedgerFraming.TruncationIsSafe` | packages/ai-cost-system/src/ledger.ts:107-118 | Replaying any truncation of the file gives a prefix of the events or refuses a partial record. |
| `LedgerFraming.PrintHasNoLineFeed` | packages/ai-cost-system/src/canonical.ts:7-9 | A canonical text has no line feed and is not empty, so records are lines. |
| `LedgerFile.AccountingLedger.Write` | packages/ai-cost-system/src/ledger.ts:69-81 | The write loop: on success the whole record is appended, on failure a proper prefix of it; it succeeds exactly when the calls take the record before one takes nothing. |
| `LedgerFile.AccountingLedger.Append` | packages/ai-cost-system/src/ledger.ts:51-90 | An append succeeds exactly when the whole record is taken and synchronised; the record is in the file whenever it is taken whole, even when the synchronisation fails, and otherwise a proper prefix of it is. |
| `LedgerFile.AccountingLedger.Replay` | packages/ai-cost-system/src/ledger.ts:92-149 | The replay loops compute the specified replay, error for error. |
| `LedgerFile.EveryRunIsInOrder` | packages/ai-cost-system/src/ledger.ts:53-90 | However callers interleave and whatever opening, writing or synchronising fails: the file holds what the calls wrote in call order, acknowledged calls their whole records, and of the open call as much as it has written. |
| `LedgerFile.ConcurrentAppendsReplay` | packages/ai-cost-system/src/ledger.ts:53-149 | As long as nothing fails: at any moment replay gives the first events in call order or refuses the record being written; when nothing is pending it gives all. |
| `LedgerTorn.AcceptedRests` | packages/ai-cost-system/src/json.ts:86-252 | A text that is accepted leaves no string and no bracket open. |
| `LedgerTorn.TornRecordIsFinal` | packages/ai-cost-system/src/ledger.ts:51-118 | After an append that failed part-way, no later appends, complete or failed, make the file replayable again; for events that are objects whose first key begins with a small letter, as the schemas have them. |
| `LedgerTorn.ReplayableIffUntorn` | packages/ai-cost-system/src/ledger.ts:51-149 | The file that any appends of such events leave, failed ones among them, replays exactly when none is torn and the identifiers of the completed events are distinct, and then gives those events in order. |
| `LedgerTorn.ReplayAtAnyMoment` | packages/ai-cost-system/src/ledger.ts:51-149 | The same at any moment of any run of concurrent callers with failures, for the ended appends and the open one. |
| `LedgerTorn.AcknowledgedIsReplayed` | packages/ai-cost-system/src/ledger.ts:51-149 | Whenever the file can be replayed, every acknowledged event is among those that replay gives. |
| `RoutingContracts.ValidateTransitionOrder` | packages/ai-cost-system/src/routing-contracts.ts:299-323 | The loop over neighbours accepts exactly the traces whose stages are in order pairwise and that end in the final stage. |
| `RoutingState.CollectEvents` | packages/ai-cost-system/src/routing-state.ts:45-65 | The latest health per provider and model, the latest approval per scope, the started attempts and the evidence, as the last matching events determine them. |
| `RoutingState.DeriveRoutingState` | packages/ai-cost-system/src/routing-state.ts:30-98 | The derived state is the one the event log determines. |
| `RoutingState.RepeatedFailureIs` | packages/ai-cost-system/src/routing-state.ts:132-161 | A request is refused as repeated exactly when its last two failures with the same error and patch took the same route and left the same evidence; no such failure lies between or behind them. |
| `CostRouter.ApprovedWhenAllGranted` | packages/ai-cost-system/src/cost-router.ts:699-729 | Approval is given exactly when every required scope is granted. |
| `RouterProperties.EveryDecisionIsAccepted` | packages/ai-cost-system/src/routing-contracts.ts:325-381 | Whatever the request, configuration, ledger, cache and budget say, audit failure included: the draft has an ordered trace of at most 32 transitions ending in the final stage with the decision's reason, and a consistent route and provider, so the contract never rejects it. |
| `RouterProperties.SearchFindsFirst` | packages/ai-cost-system/src/cost-router.ts:239-295 | The search finds the first candidate in route-rank and then provider order, and none exactly when there is none. |
| `RouterProperties.FirstIsUnique` | packages/ai-cost-system/src/cost-router.ts:364-575 | There is at most one first candidate. |
| `RouterProperties.CheapestFirst` | packages/ai-cost-system/src/cost-router.ts:239-575 | The only provider quoted is the first candidate; its quote and approval alone decide, so nothing costlier is tried after a refusal; before the routes are reached, or without a candidate, nothing is quoted. |
| `RouterProperties.PassEndsOnPrice` | packages/ai-cost-system/src/cost-router.ts:569-574 | A pass over two providers without a decision ends on a price reason exactly when the last one's price ruled it out, which is what stops escalation. |
| `RouterProperties.FinalIsAcceptable` | packages/ai-cost-system/src/cost-router.ts:784-801 | A draft whose trace is in order, short enough and consistent up to its final transition becomes acceptable with the final transition that is added when it has none. |
| `RouterProperties.FailedAuditIsAcceptable` | packages/ai-cost-system/src/cost-router.ts:613-635 | The draft made after a failed audit is acceptable. |
| `RouterPasses.Evaluation.Push` | packages/ai-cost-system/src/cost-router.ts:772-782 | One transition is appended to the trace. |
| `RouterPasses.Evaluation.EvaluateCache` | packages/ai-cost-system/src/cost-router.ts:297-362 | The loop over cache candidates decides, and records, as specified. |
| `RouterPasses.Evaluation.EvaluateProviderRoute` | packages/ai-cost-system/src/cost-router.ts:364-575 | The loop over a route's providers leaves the specified trace, reason, pricing status and quotes. |
| `RouterPasses.Evaluation.Rule` | packages/ai-cost-system/src/cost-router.ts:446-567 | The candidate is quoted, and quote and approval give the specified ruling. |
| `RouterPasses.Evaluation.ConsiderRoute` | packages/ai-cost-system/src/cost-router.ts:239-295 | One turn of the loop over the routes. |
| `RouterPasses.Evaluation.EvaluateRoutes` | packages/ai-cost-system/src/cost-router.ts:239-295 | The loop over the routes always decides, as specified. |
| `RouterPasses.Evaluation.EvaluateInternal` | packages/ai-cost-system/src/cost-router.ts:163-295 | The decision before its audit, and the quotes made, are the specified ones. |
| `RouterPasses.Evaluation.Evaluate` | packages/ai-cost-system/src/cost-router.ts:577-636 | The audited decision, or the refusal after a failed audit, is the specified one; the quotes are those of the evaluation. |
| `PromptBuilder.PromptIgnoresReport` | packages/ai-cost-system/src/prompt-builder.ts:79-155 | Manifests that differ in their compaction reports only render as the same prompt, if both are accepted; so the byte count found with a provisional report holds for the final one. |
| `ContextPruning.NoExcessMeansWithin` | packages/ai-cost-system/src/context-builder.ts:226-265 | No excess is reported exactly when every category limit, the item count and the prompt bytes are within their limits. |
| `ContextPruning.SoonestIs` | packages/ai-cost-system/src/context-builder.ts:300-318 | The candidate chosen is removable and no removable one comes sooner; none exactly when nothing is removable. |
| `ContextPruning.RemovingOne` | packages/ai-cost-system/src/context-builder.ts:320-339 | Filtering by identifier removes exactly the chosen item. |
| `ContextPruning.Partition` | packages/ai-cost-system/src/context-builder.ts:320-339 | Per category, what was there is what is kept plus what was pruned, disjointly, and nothing critical is pruned. |
| `ContextPruning.SelectionState.constructor` | packages/ai-cost-system/src/context-builder.ts:390-400 | The state starts with the selection and nothing pruned. |
| `ContextPruning.SelectionState.Prune` | packages/ai-cost-system/src/context-builder.ts:320-339 | The item leaves its list, the other lists stay, and its id is noted. |
| `ContextPruning.Turn` | packages/ai-cost-system/src/context-builder.ts:406-471 | One turn of the loop answers with a justified outcome or names the item to prune next. |
| `ContextPruning.Build` | packages/ai-cost-system/src/context-builder.ts:402-482 | The loop always returns from inside; items are pruned greedily, none critical, none twice; READY means every limit holds for the returned prompt; STOP or APPROVAL on overflow means limits are exceeded and nothing that counts towards them can be pruned. |
| `ContextPruning.GlobalOverflowLeavesCritical` | packages/ai-cost-system/src/context-builder.ts:441-470 | On an overflow of items or prompt bytes only critical items remain. |
| `ContextPruning.CategoryOverflowLeavesCritical` | packages/ai-cost-system/src/context-builder.ts:441-470 | On an overflow of a category only its critical items remain. |
| `ContextPruning.GreedyIsDetermined` | packages/ai-cost-system/src/context-builder.ts:300-318 | What is pruned is determined as far as two builds both go. |
| `ContextPruning.OutcomeIsDetermined` | packages/ai-cost-system/src/context-builder.ts:402-482 | Two builds from the same start prune the same items and end with the same outcome. |
| `DiffCompaction.BodyCounts` | packages/ai-cost-system/src/diff-compactor.ts:55-83 | The counting loop fails exactly on a line that belongs to no hunk body, and otherwise counts the old and the new lines. |
| `DiffCompaction.CompactionIsSound` | packages/ai-cost-system/src/diff-compactor.ts:151-199 | Selected, excluded and duplicate hunks partition the input; selected ones are relevant, sorted and pairwise at different coordinates; every duplicate is represented. |
| `DiffCompaction.CompactionIgnoresOrder` | packages/ai-cost-system/src/diff-compactor.ts:161-199 | The result does not depend on the order of the hunks. |
| `DiffCompaction.CompactionIsIdempotent` | packages/ai-cost-system/src/diff-compactor.ts:151-199 | Compacting the selection again selects all of it. |
| `DiffCompaction.CompactDiffHunks` | packages/ai-cost-system/src/diff-compactor.ts:151-199 | The three loops compute the specified compaction; they stop for a relevant path that is not normalised, an invalid hunk or a contradiction. |
| `DiffCompaction.FindContradiction` | packages/ai-cost-system/src/diff-compactor.ts:162-170 | The map of hashes detects exactly the pairs at the same coordinates with different patches. |
| `DiffCompaction.SiftSorted` | packages/ai-cost-system/src/diff-compactor.ts:172-190 | The selection loop with its key set computes the specified partition. |
| `DiffCompaction.HunkIsDroppedIff` | packages/ai-cost-system/src/diff-compactor.ts:172-190 | A hunk is dropped as a duplicate exactly when it is relevant and a hunk with its coordinates and patch has a lesser identifier, critical or not. |
| `DiffCompaction.CriticalHunksAreKeptIff` | packages/ai-cost-system/src/diff-compactor.ts:178-190 | No critical hunk is dropped exactly when every relevant critical hunk has the least identifier among its duplicates. |
| `DiffCompaction.CriticalHunkIsDropped` | packages/ai-cost-system/src/diff-compactor.ts:183-187 | A concrete critical hunk that is dropped for one that is not critical. |
| `ErrorCompaction.FramesAreExact` | packages/ai-cost-system/src/error-compactor.ts:130-141 | The compacted frames are exactly the normalised frames that are not empty, each once. |
| `ErrorCompaction.CompactFrames` | packages/ai-cost-system/src/error-compactor.ts:130-141 | The loop over frames computes them and the reason codes; the duplicate code is given exactly when two frames are the same once normalised. |
| `ErrorCompaction.CompactOne` | packages/ai-cost-system/src/error-compactor.ts:127-168 | One diagnostic becomes its compact error; the schema rejects it exactly when its message normalises to nothing. |
| `ErrorCompaction.CompactEach` | packages/ai-cost-system/src/error-compactor.ts:126-168 | The loop over all diagnostics. |
| `ErrorCompaction.CompactErrors` | packages/ai-cost-system/src/error-compactor.ts:101-196 | Refused for secret, unredacted sensitive or unknown-command diagnostics, in that order; throws when a message normalises to nothing; otherwise the specified compaction. |
| `ErrorCompaction.CompactionIsExact` | packages/ai-cost-system/src/error-compactor.ts:170-189 | The compacted errors are those of all diagnostics, in ascending order. |
| `ErrorCompaction.CompactionIgnoresOrder` | packages/ai-cost-system/src/error-compactor.ts:101-196 | The result, refusals and reason codes included, does not depend on the order of the diagnostics. |
| `ErrorCompaction.SortedErrorIsDroppedIff` | packages/ai-cost-system/src/context-builder.ts:135-145 | Among sorted errors one is dropped exactly when another one with its fingerprint sorts before it, critical or not. |
| `ErrorCompaction.ErrorIsDroppedIff` | packages/ai-cost-system/src/context-builder.ts:135-145 | The error of a diagnostic is dropped exactly when a diagnostic that is alike has a lesser identifier, critical or not; alike means the same stage, command, exit code, code and symbol, and the same path, normalised message and frames once these are in NFC, as the fingerprint takes them. |
| `ErrorCompaction.CriticalErrorsAreKeptIff` | packages/ai-cost-system/src/context-builder.ts:135-145 | No critical error is dropped exactly when every critical diagnostic has the least identifier among those alike in this sense. |
| `ErrorCompaction.CriticalErrorIsDropped` | packages/ai-cost-system/src/context-builder.ts:135-145 | Of two diagnostics that are alike the critical one is dropped when it has the greater identifier. |
| `ErrorCompaction.CriticalTwinIsDropped` | packages/ai-cost-system/src/context-builder.ts:135-145 | So a critical diagnostic is lost to one that differs in identifier and criticality only. |
| `ErrorCompaction.CriticalVariantIsDropped` | packages/ai-cost-system/src/error-compactor.ts:142-153 | And to one whose message is another one, an accented letter written as one character instead of two. |
| `ErrorCompaction.BlankMessageThrows` | packages/ai-cost-system/src/error-compactor.ts:142-168 | A message of one blank, which the input schema accepts, makes the compaction throw. |
| `ContextSelection.DeduplicationIsSound` | packages/ai-cost-system/src/context-builder.ts:97-133 | Kept and dropped excerpts partition the input; kept ones differ in path and content and stand in order; a worthier excerpt with the same path and content stands for each dropped one. |
| `ContextSelection.CriticalContentIsKept` | packages/ai-cost-system/src/context-builder.ts:97-133 | The path and content of every critical excerpt is kept by a critical excerpt. |
| `ContextSelection.ExcerptsIgnoreOrder` | packages/ai-cost-system/src/context-builder.ts:97-133 | Deduplication does not depend on the order of the excerpts. |
| `ContextSelection.DeduplicateExcerpts` | packages/ai-cost-system/src/context-builder.ts:97-133 | The loop with its key set computes the specified deduplication. |
| `ContextSelection.PreparedIsWellFormed` | packages/ai-cost-system/src/context-builder.ts:390-400 | What the build starts from is a selection with distinct ids in every category. |
| `ContextSelection.BuildContext` | packages/ai-cost-system/src/context-builder.ts:354-482 | The whole build: refusals of the schema, of an unusable budget, of the integrity checks and of the compactions, in that order; then the pruning loop's outcome for the normalised material. |
| `ContextSelection.CriticalErrorIsLost` | packages/ai-cost-system/src/context-builder.ts:374-400 | A build that is given a critical diagnostic and a plain one that is alike and has a lesser identifier starts without any critical error. |
| `ContextSelection.BlankMessageEndsTheBuild` | packages/ai-cost-system/src/context-builder.ts:380-386 | A diagnostic whose message is one blank ends an otherwise acceptable build with an exception. |
| `ContextSelection.BuildIgnoresOrder` | packages/ai-cost-system/src/context-builder.ts:354-483 | Permuting excerpts, hunks or diagnostics does not change the outcome of a build (prompt, manifest, report and pruned ids included), except for the reason given by a build that the integrity checks stop. |
| `ContextSelection.BuildIgnoresOrderIff` | packages/ai-cost-system/src/context-builder.ts:354-483 | Every order of the parts ends every build alike exactly when the budget is unusable or that condition holds. |
| `ContextIntegrity.VerdictIsExact` | packages/ai-cost-system/src/context-integrity.ts:198-248 | The checks, made one after another, pass exactly the contexts that are valid whatever their order: data classes, normal paths, excerpts in scope with matching hash and range, no two hashes at one place, allowed redactions, no forbidden text. |
| `ContextIntegrity.IntegrityIgnoresOrder` | packages/ai-cost-system/src/context-integrity.ts:198-248 | Whether a context passes, and its normalised parts, do not depend on the order of the parts. |
| `ContextIntegrity.ReasonDependsOnOrder` | packages/ai-cost-system/src/context-integrity.ts:131-166 | Why it does not pass may: two faulty excerpts give different reasons in different orders. |
| `IntegrityReasons.GivenMayBeGiven` | packages/ai-cost-system/src/context-integrity.ts:131-166 | The reason the loop gives is the fault of one excerpt by itself, or that of one behind a faultless excerpt with another hash at the same place. |
| `IntegrityReasons.SomeOrderGives` | packages/ai-cost-system/src/context-integrity.ts:131-166 | Each of these reasons is given by some order of the excerpts. |
| `IntegrityReasons.OneReasonIff` | packages/ai-cost-system/src/context-integrity.ts:131-166 | All orders of the excerpts give the same reason exactly when there is only one such reason. |
| `IntegrityReasons.ReasonIsFixedIff` | packages/ai-cost-system/src/context-integrity.ts:198-248 | All orders of a whole context get the same verdict exactly when it stops for its data classes or paths, or, of the first kind of parts with faults (excerpts, hunks, diagnostics), all possible reasons are the same. |
| `ContextIntegrity.CheckExcerpt` | packages/ai-cost-system/src/context-integrity.ts:139-163 | One excerpt: the reason of its first fault, or the excerpt with normalised line ends. |
| `ContextIntegrity.NormalizeExcerpts` | packages/ai-cost-system/src/context-integrity.ts:131-166 | The loop with its map of places gives the first fault of all excerpts, or all of them normalised. |
| `ContextIntegrity.FindFault` | packages/ai-cost-system/src/context-integrity.ts:168-196 | The loops over hunks and over diagnostics give the first fault. |
| `ContextIntegrity.ValidateIntegrity` | packages/ai-cost-system/src/context-integrity.ts:198-248 | All checks in order: the specified reason, or the normalised material. |
| `Sorting.SortedIgnoresOrder` | packages/ai-cost-system/src/diff-compactor.ts:161-161 | Sorting by a strict order that decides between any two items gives the same list for every arrangement of them. |
| `Sorting.DroppedIff` | packages/ai-cost-system/src/context-builder.ts:135-145 | Keeping the first item per key drops an item exactly when one with its key comes before it. |
| `Sorting.KeepFirst` | packages/ai-cost-system/src/context-builder.ts:110-124 | The loop with a set of seen keys keeps the first item per key. |

## Left out

- Several controllers over one ledger: `BudgetRuns` has one controller at a time; everything else that appends to the
  ledger is another component whose events are not budget events.
- The loading of a ledger while an append of the same process is pending: replay waits for the queue in the source,
  and happens at start-up in the model.
- Numbers that are not integers: they are kept as literals when parsed and are outside the printing and round-trip
  claims; -0 is not told apart from 0.
- Objects with integer-like keys, which JavaScript enumerates in numeric order: objects keep the order of their
  members here.
- UTF-8: files and texts are sequences of UTF-16 code units; a character torn between its bytes is not modelled, and
  byte lengths are an abstract function.
- Unicode normalisation, hashes, HMAC and sealing: abstract functions, idempotent or injective where a lemma says so.
- The schemas of events, entries, requests and manifests: abstract acceptance functions, beyond the uniqueness, ranges
  and currency form that proofs use. `QuoteIsExactDryRun` therefore asks that the schema accept the made-up ids of the
  quote and the caller's ids alike.
- QuoteIsExactDryRun: does not cover ids that the controller has already used, which reserving refuses and a quote
  cannot see.
- Scans for secrets and personal data, path normalisation, boundary markers, text normalisation of diagnostics:
  abstract predicates and functions.
- File-system safety (links, real paths, temporary files, fsync) and the bodies of cache-storage.ts and snapshot.ts:
  the ledger file is a text and the cache storage a content-addressed list of entries.
- Of the router's audit event, all but whether its append succeeds.
- VerifiedCacheRuntime.constructor: opening fails when the ledger cannot be replayed; only successful openings are
  modelled. The check of the byte ceiling for sensitive payloads is part of one abstract flag.
- Provenance and time of cache events other than what lookups compare: random event ids and clock readings are
  parameters.
- RepeatedFailureIs: sorted evidence hashes are compared as a sequence, not as one joined string.
- EveryCacheRunIsSafe: operations run one at a time; for races only what lookups serve is stated
  (`ContestedIsNeverServed`).
- Batches of the reconciler: for safety any subset of the stale rows may be selected (SKIP LOCKED, LIMIT 500); for
  liveness a tick selects a full batch.
- EveryJobCanEnd: states that a finite continuation exists, not that a fair scheduler takes it.
- Handlers other than the delivery of notifications: a handler commits some effect or fails; preferences decide only
  whether a notification is inserted, and when it becomes visible is left out.
- Wait times: delays of retries and poll timeouts are part of the clock that a run advances freely.
- ErrorCompaction: nullable fields are options; the check that allowed command ids are distinct is part of the schema.
- CompactDiffHunks: excluded and duplicate hunks are returned as hunks in sorting order; the build sorts their ids.
- BuildContext: what the input schema accepts is abstract; an input that it refuses is one that is not there.
- ErrorIsDroppedIff: identifiers are made of letters, digits and the signs that the schema allows; the canonical text
  of the sort key is abstract but for the place of the identifier in it, and NFC is abstract and applied to paths,
  messages and frames only, since it leaves identifiers as they are.
- Provider adapters and invokers, HTTP routes, sessions, administration, messaging, web application, migrations,
  ingestion, matching and pagination: their claims are easy ones, or calls to foreign code.
