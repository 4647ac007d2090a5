/**
 What the budget controller decides: the pure rules that turn a request, the configuration
 and the events seen so far into a refusal or into the one event to append.
 */
module BudgetPolicy {
  import opened Prelude
  import opened Money
  import opened Pricing
  import opened BudgetEvents
  import opened BudgetReplay

  // ---- Configuration ----

  datatype ProviderConfig = ProviderConfig(
    enabled: bool, model: Option<string>, automaticMode: bool, dataClasses: set<DataClass>,
    maxInputTokens: Option<Safe>, maxOutputTokens: Option<Safe>, maxCallsPerTask: Option<Safe>,
    maxCostPerTask: Option<Money>, timeoutMs: Option<Safe>, maxRetries: Option<Safe>)

  datatype ScopedLimits = ScopedLimits(
    maxInputTokens: Option<Safe>, maxOutputTokens: Option<Safe>, maxCalls: Option<Safe>, maxCost: Option<Money>)

  datatype BudgetClass = NoBudget | LocalOnly | CheapAllowed | StrongAllowed | IncidentOverride

  datatype Limits = Limits(
    perTask: ScopedLimits, providerTask: ScopedLimits, providerDay: ScopedLimits, providerMonth: ScopedLimits,
    cloudDay: ScopedLimits, cloudMonth: ScopedLimits, cloudCallsTask: Option<Safe>,
    retriesPerTask: Option<Safe>, retriesPerProviderTask: Option<Safe>, localWallTimePerTask: Option<Safe>)

  /**
   `parses` is what the event schema accepts beyond the numeric ranges of the event types; `quoteHash` hashes a quote's
   request, the number of events and the configuration.
   */
  datatype Config = Config(
    localAi: ProviderConfig, deepSeek: ProviderConfig, qwen: ProviderConfig,
    codex: ProviderConfig, claude: ProviderConfig,
    budgetClass: BudgetClass, limits: Limits,
    snapshots: seq<PricingSnapshot>, pricingVersion: string, configHash: string,
    parses: Event -> bool, quoteHash: (nat, QuoteRequest) -> string)
  {
    function Provider(provider: Provider): ProviderConfig {
      match provider
      case LocalAi => localAi
      case DeepSeek => deepSeek
      case Qwen => qwen
      case Codex => codex
      case Claude => claude
    }
  }

  function RouteProviders(route: Route): seq<Provider> {
    match route
    case Deterministic => []
    case Local => [LocalAi]
    case CheapCloud => [DeepSeek, Qwen]
    case Strong => [Codex, Claude]
  }

  predicate RouteWithinClass(route: Route, budgetClass: BudgetClass) {
    match budgetClass
    case NoBudget => false
    case LocalOnly => route == Local
    case CheapAllowed => route == Local || route == CheapCloud
    case StrongAllowed => route == Local || route == CheapCloud || route == Strong
    case IncidentOverride => route == Local || route == CheapCloud || route == Strong
  }

  // ---- Requests and outcomes ----

  datatype Code =
    | ReplayFailed | StorageFailure | RecoveryRequired | DiscrepancyBlock | NotConfigured | ProviderDisabled
    | LimitExceeded | InvalidRequest | DuplicateTransition | UnknownReservation | AlreadySettled

  /** A coded controller error, a failed derivation of the candidate state, or a schema error. */
  datatype Failure = Refused(code: Code) | StateError | SchemaError

  datatype ReserveRequest = ReserveRequest(
    eventId: string, reservationId: string, taskId: string, attemptId: string, provider: Provider,
    model: string, route: Route, dataClass: DataClass, automatic: bool, retry: bool, inputTokens: int)

  /** A quote leaves out the ids; the dry run makes them up from a hash of the request. */
  datatype QuoteRequest = QuoteRequest(
    taskId: string, provider: Provider, model: string, route: Route, dataClass: DataClass,
    automatic: bool, retry: bool, inputTokens: int)
  {
    function WithIds(eventId: string, reservationId: string, attemptId: string): ReserveRequest {
      ReserveRequest(eventId, reservationId, taskId, attemptId, provider, model, route, dataClass, automatic, retry,
                     inputTokens)
    }

    function DryRun(hash: string): ReserveRequest {
      WithIds("dry-run-quote-event-" + hash, "dry-run-quote-reservation-" + hash, "dry-run-quote-attempt-" + hash)
    }
  }

  datatype SettleRequest = SettleRequest(
    eventId: string, settlementId: string, reservationId: string, usage: TokenUsage, wallMs: int, reasonCode: string)

  datatype ReleaseRequest = ReleaseRequest(
    eventId: string, settlementId: string, reservationId: string, reasonCode: string)

  /** The controller's durable-log view; its cached state is derived from these. */
  datatype Controller = Controller(events: seq<Event>, recovered: set<string>, storageFailed: bool)
  {
    ghost predicate Valid() {
      Derivable(events)
    }

    ghost function Records(): seq<Record>
      requires Valid()
    {
      BudgetReplay.Records(events).value
    }
  }

  /** Either a refusal, or one event to append with the recovered ids that hold afterwards. */
  datatype Decision =
    | Refuse(failure: Failure)
    | Append(event: Event, recovered: set<string>)
    | Answer(quoted: Reservation)

  predicate UsesEventId(events: seq<Event>, id: string) {
    exists i | 0 <= i < |events| :: events[i].Id() == id
  }

  predicate UsesReservationId(events: seq<Event>, id: string) {
    exists i | 0 <= i < |events| :: events[i].BudgetReservation? && events[i].reservation.reservationId == id
  }

  predicate UsesSettlementId(events: seq<Event>, id: string) {
    exists i | 0 <= i < |events| :: events[i].BudgetSettlement? && events[i].settlement.settlementId == id
  }

  // ---- Limit checks ----

  /** One comparison of the source's limit validation; a missing limit is a refusal of its own. */
  datatype Check =
    | NumberCheck(value: nat, limit: Option<Safe>)
    | CostCheck(cost: nat, currency: string, costLimit: Option<Money>)
  {
    function Failing(): Option<Code> {
      match this
      case NumberCheck(value, limit) =>
        if limit.None? then Some(NotConfigured) else if value > limit.value then Some(LimitExceeded) else None
      case CostCheck(micros, currency, limit) =>
        if limit.None? then Some(NotConfigured)
        else if currency != limit.value.currency then Some(InvalidRequest)
        else if micros > limit.value.amountMicros then Some(LimitExceeded)
        else None
    }
  }

  function FirstFailing(checks: seq<Check>): (r: Option<Code>)
    ensures r.None? <==> forall i | 0 <= i < |checks| :: checks[i].Failing().None?
  {
    if checks == [] then None
    else if checks[0].Failing().Some? then checks[0].Failing()
    else FirstFailing(checks[1..])
  }

  /** A candidate total of the new reservation's scope in a family. */
  type Reading = (Family, Meter) -> nat

  function ScopedChecks(at: Reading, family: Family, currency: string, limits: ScopedLimits): seq<Check> {
    [NumberCheck(at(family, Input), limits.maxInputTokens), NumberCheck(at(family, Output), limits.maxOutputTokens),
     NumberCheck(at(family, Calls), limits.maxCalls), CostCheck(at(family, CostMicros), currency, limits.maxCost)]
  }

  function ProviderChecks(provider: ProviderConfig, r: Reservation, at: Reading): seq<Check> {
    [NumberCheck(r.inputTokens, provider.maxInputTokens),
     NumberCheck(r.outputTokens, provider.maxOutputTokens),
     NumberCheck(at(ProviderTask, Calls), provider.maxCallsPerTask),
     CostCheck(at(ProviderTask, CostMicros), r.cost.currency, provider.maxCostPerTask)]
  }

  function CloudChecks(limits: Limits, r: Reservation, at: Reading): seq<Check> {
    if !r.cloud then []
    else ScopedChecks(at, CloudDay, r.cost.currency, limits.cloudDay)
         + ScopedChecks(at, CloudMonth, r.cost.currency, limits.cloudMonth)
         + [NumberCheck(at(CloudCallsTask, Calls), limits.cloudCallsTask)]
  }

  function RetryChecks(limits: Limits, provider: ProviderConfig, r: Reservation, at: Reading): seq<Check> {
    if !r.retry then []
    else [NumberCheck(at(RetryTask, Retries), limits.retriesPerTask),
          NumberCheck(at(RetryProviderTask, Retries), limits.retriesPerProviderTask),
          NumberCheck(at(RetryProviderTask, Retries), provider.maxRetries)]
  }

  function WallTimeChecks(limits: Limits, r: Reservation, at: Reading): seq<Check> {
    if r.cloud then [] else [NumberCheck(at(LocalWallTimeTask, WallTime), limits.localWallTimePerTask)]
  }

  /** All limit checks for a new reservation, in source order. */
  function LimitChecks(cfg: Config, r: Reservation, at: Reading): seq<Check> {
    ProviderChecks(cfg.Provider(r.provider), r, at)
    + ScopedChecks(at, PerTask, r.cost.currency, cfg.limits.perTask)
    + ScopedChecks(at, ProviderTask, r.cost.currency, cfg.limits.providerTask)
    + ScopedChecks(at, ProviderDay, r.cost.currency, cfg.limits.providerDay)
    + ScopedChecks(at, ProviderMonth, r.cost.currency, cfg.limits.providerMonth)
    + CloudChecks(cfg.limits, r, at)
    + RetryChecks(cfg.limits, cfg.Provider(r.provider), r, at)
    + WallTimeChecks(cfg.limits, r, at)
  }

  ghost predicate AgreeInScope(r: Reservation, f: Reading, g: Reading) {
    forall family: Family, meter | (CloudOnly(family) ==> r.cloud)
      && (family.HoldsUsage() || meter == CounterMeter(family)) :: f(family, meter) == g(family, meter)
  }

  lemma ScopedChecksAgree(
      r: Reservation, f: Reading, g: Reading, family: Family, currency: string, limits: ScopedLimits)
    requires AgreeInScope(r, f, g) && family.HoldsUsage() && (CloudOnly(family) ==> r.cloud)
    ensures ScopedChecks(f, family, currency, limits) == ScopedChecks(g, family, currency, limits)
  {
  }

  lemma CloudChecksAgree(limits: Limits, r: Reservation, f: Reading, g: Reading)
    requires AgreeInScope(r, f, g)
    ensures CloudChecks(limits, r, f) == CloudChecks(limits, r, g)
  {
    if r.cloud {
      ScopedChecksAgree(r, f, g, CloudDay, r.cost.currency, limits.cloudDay);
      ScopedChecksAgree(r, f, g, CloudMonth, r.cost.currency, limits.cloudMonth);
    }
  }

  lemma OtherChecksAgree(limits: Limits, provider: ProviderConfig, r: Reservation, f: Reading, g: Reading)
    requires AgreeInScope(r, f, g)
    ensures ProviderChecks(provider, r, f) == ProviderChecks(provider, r, g)
    ensures RetryChecks(limits, provider, r, f) == RetryChecks(limits, provider, r, g)
    ensures WallTimeChecks(limits, r, f) == WallTimeChecks(limits, r, g)
  {
  }

  /** The checks of a reservation read only the scopes it falls into. */
  lemma ChecksReadOwnScopes(cfg: Config, r: Reservation, f: Reading, g: Reading)
    requires AgreeInScope(r, f, g)
    ensures LimitChecks(cfg, r, f) == LimitChecks(cfg, r, g)
  {
    ScopedChecksAgree(r, f, g, PerTask, r.cost.currency, cfg.limits.perTask);
    ScopedChecksAgree(r, f, g, ProviderTask, r.cost.currency, cfg.limits.providerTask);
    ScopedChecksAgree(r, f, g, ProviderDay, r.cost.currency, cfg.limits.providerDay);
    ScopedChecksAgree(r, f, g, ProviderMonth, r.cost.currency, cfg.limits.providerMonth);
    CloudChecksAgree(cfg.limits, r, f, g);
    OtherChecksAgree(cfg.limits, cfg.Provider(r.provider), r, f, g);
  }

  // ---- Decisions ----

  function ProviderRefusal(cfg: Config, q: ReserveRequest): Option<Code> {
    var provider := cfg.Provider(q.provider);
    if q.provider !in RouteProviders(q.route) then Some(InvalidRequest)
    else if q.dataClass !in provider.dataClasses then Some(InvalidRequest)
    else if q.automatic && !provider.automaticMode then Some(InvalidRequest)
    else if provider.model != Some(q.model) then Some(InvalidRequest)
    else if !RouteWithinClass(q.route, cfg.budgetClass) then Some(NotConfigured)
    else None
  }

  /** What a reservation would cost under the configuration, or why it is refused; ids play no part. */
  function TermsFor(cfg: Config, q: ReserveRequest): Result<(Resolved, Money), Failure> {
    var provider := cfg.Provider(q.provider);
    if !provider.enabled then Err(Refused(ProviderDisabled))
    else if ProviderRefusal(cfg, q).Some? then Err(Refused(ProviderRefusal(cfg, q).value))
    else
      match Resolve(cfg.snapshots, q.provider, q.model, q.automatic, q.provider != LocalAi)
      case None => Err(Refused(NotConfigured))
      case Some(pricing) =>
        if provider.maxOutputTokens.None? || provider.timeoutMs.None? then Err(Refused(NotConfigured))
        else
          match CostOf(pricing, TokenUsage(q.inputTokens, provider.maxOutputTokens.value, 0, 0))
          case None => Err(Refused(InvalidRequest))
          case Some(cost) => Ok((pricing, cost))
  }

  function Draft(cfg: Config, q: ReserveRequest, now: string): Reservation
    requires TermsFor(cfg, q).Ok?
  {
    var (pricing, cost) := TermsFor(cfg, q).value;
    var provider, cloud := cfg.Provider(q.provider), q.provider != LocalAi;
    Reservation(
      q.eventId, now, q.reservationId, q.taskId, q.attemptId, q.provider, q.model, q.route,
      q.dataClass, q.automatic, cloud, q.retry, q.inputTokens, provider.maxOutputTokens.value, cost,
      if cloud then 0 else provider.timeoutMs.value, cfg.pricingVersion, pricing.rates, cfg.configHash)
  }

  /** The reservation event of a request, or why it cannot be written; no totals are consulted. */
  function ReservationFor(cfg: Config, q: ReserveRequest, now: Option<string>): Result<Reservation, Failure> {
    if TermsFor(cfg, q).Err? then Err(TermsFor(cfg, q).error)
    else if now.None? then Err(Refused(InvalidRequest))
    else
      var r := Draft(cfg, q, now.value);
      if cfg.parses(BudgetReservation(r)) then Ok(r) else Err(SchemaError)
  }

  lemma ReservationCarriesRequest(cfg: Config, q: ReserveRequest, now: Option<string>)
    requires ReservationFor(cfg, q, now).Ok?
    ensures var r := ReservationFor(cfg, q, now).value;
            && r.eventId == q.eventId && r.reservationId == q.reservationId && r.taskId == q.taskId
            && r.provider == q.provider && r.automatic == q.automatic && r.retry == q.retry
            && r.occurredAt == now.value
  {
  }

  /** The total a scope would hold with the reservation added. */
  ghost function CandidateSum(records: seq<Record>, r: Reservation): Reading {
    (family, meter) => Sum(records + [Record(r, None)], KeyIn(r, family), meter)
  }

  /** The candidate log must be derivable, and its totals within the limits. */
  ghost function Checked(cfg: Config, c: Controller, r: Reservation): (d: Decision)
    requires c.Valid()
    ensures d.Refuse? || d == Append(BudgetReservation(r), c.recovered)
  {
    if !Derivable(c.events + [BudgetReservation(r)]) then Refuse(StateError)
    else
      match FirstFailing(LimitChecks(cfg, r, CandidateSum(c.Records(), r)))
      case Some(code) => Refuse(Refused(code))
      case None => Append(BudgetReservation(r), c.recovered)
  }

  /** The checks shared by reserving and quoting. */
  ghost function Prepare(cfg: Config, c: Controller, q: ReserveRequest, now: Option<string>): (d: Decision)
    requires c.Valid()
    ensures d.Refuse? || (d.Append? && d.event.BudgetReservation? && d.recovered == c.recovered)
  {
    if c.storageFailed then Refuse(Refused(StorageFailure))
    else if q.automatic && Circuit(c.Records()) then Refuse(Refused(DiscrepancyBlock))
    else if q.automatic && Blocking(c.Records(), Some(c.recovered)) != {} then Refuse(Refused(RecoveryRequired))
    else
      match ReservationFor(cfg, q, now)
      case Err(failure) => Refuse(failure)
      case Ok(r) => Checked(cfg, c, r)
  }

  ghost function DecideReserve(cfg: Config, c: Controller, q: ReserveRequest, now: Option<string>): Decision
    requires c.Valid()
  {
    if UsesEventId(c.events, q.eventId) || UsesReservationId(c.events, q.reservationId)
    then Refuse(Refused(DuplicateTransition))
    else Prepare(cfg, c, q, now)
  }

  /** A quote prepares a reservation with made-up ids and appends nothing. */
  ghost function DecideQuote(cfg: Config, c: Controller, q: QuoteRequest, now: Option<string>): Decision
    requires c.Valid()
  {
    match Prepare(cfg, c, q.DryRun(cfg.quoteHash(|c.events|, q)), now)
    case Append(event, _) => Answer(event.reservation)
    case refusal => refusal
  }

  /** The refusals that settling and releasing share. */
  ghost function CloseRefusal(c: Controller, reservationId: string, eventId: string, settlementId: string)
    : Option<Code>
    requires c.Valid()
  {
    if c.storageFailed then Some(StorageFailure)
    else if reservationId in ClosedIds(c.Records()) then Some(AlreadySettled)
    else if reservationId !in ActiveIds(c.Records()) then Some(UnknownReservation)
    else if UsesEventId(c.events, eventId) || UsesSettlementId(c.events, settlementId) then Some(DuplicateTransition)
    else None
  }

  function SettlementFor(cfg: Config, r: Reservation, q: SettleRequest, now: Option<string>)
    : Result<Settlement, Failure>
  {
    match CostOf(Resolved(r.cost.currency, r.rates), q.usage)
    case None => Err(Refused(InvalidRequest))
    case Some(cost) =>
      if now.None? then Err(Refused(InvalidRequest))
      else if !IsSafe(q.wallMs) || !IsSafe(q.usage.cacheRead) || !IsSafe(q.usage.cacheWrite) then Err(SchemaError)
      else
        var overrun := q.usage.input > r.inputTokens || q.usage.output > r.outputTokens
                       || cost.amountMicros > r.cost.amountMicros || q.wallMs > r.wallMs;
        var s := Settlement(
          q.eventId, now.value, q.settlementId, r.reservationId, r.taskId, r.attemptId, r.provider, Settled,
          q.usage.input, q.usage.output, q.usage.cacheRead, q.usage.cacheWrite, cost, q.wallMs, overrun, q.reasonCode);
        if cfg.parses(BudgetSettlement(s)) then Ok(s) else Err(SchemaError)
  }

  function ReleaseFor(cfg: Config, r: Reservation, q: ReleaseRequest, now: Option<string>)
    : Result<Settlement, Failure>
  {
    if now.None? then Err(Refused(InvalidRequest))
    else
      var s := Settlement(
        q.eventId, now.value, q.settlementId, r.reservationId, r.taskId, r.attemptId, r.provider, Released,
        0, 0, 0, 0, Money(r.cost.currency, 0), 0, false, q.reasonCode);
      if cfg.parses(BudgetSettlement(s)) then Ok(s) else Err(SchemaError)
  }

  /** A closing event also takes its reservation off the recovered ids. */
  ghost function Close(c: Controller, s: Result<Settlement, Failure>): Decision {
    match s
    case Err(failure) => Refuse(failure)
    case Ok(s) =>
      if !Derivable(c.events + [BudgetSettlement(s)]) then Refuse(StateError)
      else Append(BudgetSettlement(s), c.recovered - {s.reservationId})
  }

  ghost function DecideSettle(cfg: Config, c: Controller, q: SettleRequest, now: Option<string>): Decision
    requires c.Valid()
  {
    match CloseRefusal(c, q.reservationId, q.eventId, q.settlementId)
    case Some(code) => Refuse(Refused(code))
    case None => Close(c, SettlementFor(cfg, Active(c, q.reservationId), q, now))
  }

  ghost function DecideRelease(cfg: Config, c: Controller, q: ReleaseRequest, now: Option<string>): Decision
    requires c.Valid()
  {
    match CloseRefusal(c, q.reservationId, q.eventId, q.settlementId)
    case Some(code) => Refuse(Refused(code))
    case None => Close(c, ReleaseFor(cfg, Active(c, q.reservationId), q, now))
  }

  ghost function Active(c: Controller, id: string): Reservation
    requires c.Valid() && id in ActiveIds(c.Records())
  {
    c.Records()[Find(c.Records(), id)].reservation
  }

  /** A decision appends nothing that could not be replayed. */
  function Commit(c: Controller, d: Decision): Controller
    requires d.Append?
  {
    Controller(c.events + [d.event], d.recovered, c.storageFailed)
  }
}
