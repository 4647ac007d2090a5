/**
 The cost router: cache first, then deterministic tools, then the routes from the cheapest on. Its passes
 append to a transition trace; what they decide is specified by functions over the same questions.
 */
module CostRouter {
  import opened Prelude
  import opened RoutingContracts
  import opened RoutingState

  // ---- What the router asks ----

  datatype LookupAnswer =
    | CacheHitAnswer(provider: Provider) | OtherAnswer | QuarantinedAnswer | InvalidatedAnswer | LookupFails

  datatype Candidate = Candidate(compatible: bool, answer: LookupAnswer)

  datatype Request = Request(
    hash: string, dataClass: DataClass, riskClass: RiskClass, capability: string, deterministic: bool, purpose: string,
    allowed: set<Route>, maxRoute: Route, error: Option<string>, diff: Option<string>, primary: Option<Provider>)

  datatype ProviderConfig = ProviderConfig(
    enabled: bool, dataClasses: set<DataClass>, riskClasses: set<RiskClass>, capabilities: set<string>,
    model: Option<string>)

  datatype Price = NoSnapshot | StalePrice | UnknownPrice | KnownPrice(resolves: bool)
  datatype QuoteAnswer = QuoteAllowed | QuoteDenied(configured: bool) | QuoteFails

  /** The configuration, the ledger as replayed, the cache's answers and the budget's quotes. */
  datatype World = World(
    configValid: bool, state: Option<State>, candidates: seq<Candidate>, providers: Provider -> ProviderConfig,
    approvalRequired: Route -> bool, prices: Provider -> Price, quotes: Provider -> QuoteAnswer, audited: bool)

  const LOCAL_PURPOSES: set<string> :=
    {"classification", "short_documentation", "tiny_typescript", "simple_test_skeleton", "trivial_local_fix"}

  function ProvidersOf(route: Route): seq<Provider> {
    match route
    case Deterministic => []
    case Local => [LocalAi]
    case CheapCloud => [Deepseek, Qwen]
    case Strong => [Codex, Claude]
  }

  function StageOf(route: Route): Stage {
    match route
    case Deterministic => DeterministicStage
    case Local => LocalStage
    case CheapCloud => CheapStage
    case Strong => StrongStage
  }

  function PlaceOf(route: Route): Place {
    match route
    case Deterministic => OnDeterministic
    case Local => OnLocal
    case CheapCloud => OnCheapCloud
    case Strong => OnStrong
  }

  function ChoiceOf(route: Route): Choice {
    match route
    case Deterministic => ChooseDeterministic
    case Local => ChooseLocal
    case CheapCloud => ChooseCheapCloud
    case Strong => ChooseStrong
  }

  function UnavailableReason(route: Route): Reason {
    match route
    case Local => LocalUnavailable
    case CheapCloud => CheapUnavailable
    case _ => StrongUnavailable
  }

  // ---- Policies ----

  /** Why a route is passed over before its providers are looked at. */
  function RouteClosed(w: World, s: State, q: Request, route: Route): Option<Reason> {
    if route == Local && HasRouteInsufficiency(s, Local, q.hash) then Some(LocalInsufficient)
    else if route == CheapCloud && HasRouteInsufficiency(s, CheapCloud, q.hash) then Some(CheapInsufficient)
    else if route !in q.allowed then Some(RouteNotAllowed)
    else if RouteRank(route) > RouteRank(q.maxRoute) then Some(MaxRouteExceeded)
    else None
  }

  function ProviderDenied(w: World, q: Request, p: Provider): Option<Reason> {
    var c := w.providers(p);
    if !c.enabled then Some(ProviderDisabled)
    else if q.dataClass == Secret || q.dataClass !in c.dataClasses then Some(DataClassDenied)
    else if p == LocalAi && q.dataClass != Public then Some(DataClassDenied)
    else if q.riskClass !in c.riskClasses then Some(RiskClassDenied)
    else if p == LocalAi && q.riskClass != Low then Some(RiskClassDenied)
    else if q.capability !in c.capabilities then Some(CapabilityDenied)
    else if p == LocalAi && q.purpose !in LOCAL_PURPOSES then Some(LocalTaskNotAllowed)
    else None
  }

  function HealthReason(health: Health): Option<Reason> {
    match health
    case Healthy => None
    case Degraded => Some(ProviderDegraded)
    case Unavailable => Some(ProviderUnavailable)
    case UnknownHealth => Some(ProviderHealthUnknown)
  }

  /** The pricing status a provider leaves behind when its price rules it out. */
  function PriceRefusal(price: Price): Option<(PricingStatus, Reason)> {
    match price
    case NoSnapshot => Some((Unknown, PricingUnknown))
    case UnknownPrice => Some((Unknown, PricingUnknown))
    case StalePrice => Some((Stale, PricingStale))
    case KnownPrice(resolves) => if resolves then None else Some((PricingError, PricingUnknown))
  }

  /** Why a provider is passed over without regard to its price. */
  function PassedOver(w: World, s: State, q: Request, p: Provider): Option<Reason> {
    if ProviderDenied(w, q, p).Some? then ProviderDenied(w, q, p)
    else if w.providers(p).model.None? then Some(ProviderDisabled)
    else HealthReason(s.HealthOf(p, w.providers(p).model.value))
  }

  /** Why a provider is skipped, and the pricing status that leaves behind when it is its price. */
  datatype Skip = Skip(reason: Reason, price: Option<PricingStatus>)

  function SkipFor(w: World, s: State, q: Request, p: Provider): Option<Skip> {
    match PassedOver(w, s, q, p)
    case Some(reason) => Some(Skip(reason, None))
    case None =>
      match PriceRefusal(w.prices(p))
      case Some((status, reason)) => Some(Skip(reason, Some(status)))
      case None => None
  }

  /** The provider passes policy, model, health and pricing: it is the one to be quoted. */
  predicate Eligible(w: World, s: State, q: Request, p: Provider) {
    SkipFor(w, s, q, p).None?
  }

  // ---- Approval ----

  function AlsoIf(scopes: seq<Scope>, needed: bool, scope: Scope): seq<Scope> {
    if needed then scopes + [scope] else scopes
  }

  function RequiredScopes(w: World, q: Request, route: Route, p: Provider): seq<Scope> {
    var ofRoute := AlsoIf([], w.approvalRequired(route), ScopeOf(route));
    var ofData := AlsoIf(ofRoute, q.dataClass == Sensitive && route != Local, ScopeSensitiveCloud);
    AlsoIf(ofData, p == Claude && q.primary != Some(Claude), ScopeSecondaryClaude)
  }

  function ScopeOf(route: Route): Scope {
    match route
    case CheapCloud => ScopeCheapCloud
    case Strong => ScopeStrong
    case _ => ScopeLocal
  }

  /** The scopes in order; the local route is no scope that can be approved. */
  function ApprovalOver(s: State, scopes: seq<Scope>): ApprovalStatus {
    if scopes == [] then Approved
    else if scopes[0] == ScopeLocal then Refused
    else
      match s.GrantOf(scopes[0])
      case DeniedGrant => Refused
      case Revoked => Refused
      case Missing => Required
      case Granted => ApprovalOver(s, scopes[1..])
  }

  function ApprovalFor(w: World, s: State, q: Request, route: Route, p: Provider): ApprovalStatus {
    var scopes := RequiredScopes(w, q, route, p);
    if scopes == [] then NotRequired else ApprovalOver(s, scopes)
  }

  /** Approval is given exactly when every required scope is granted. */
  lemma {:induction false} ApprovedWhenAllGranted(s: State, scopes: seq<Scope>)
    ensures ApprovalOver(s, scopes) == Approved
            <==> forall scope | scope in scopes :: scope != ScopeLocal && s.GrantOf(scope) == Granted
    ensures ApprovalOver(s, scopes) != NotRequired
  {
    if scopes != [] {
      var first, rest := scopes[0], scopes[1..];
      ApprovedWhenAllGranted(s, rest);
      assert scopes == [first] + rest && first in scopes;
      assert forall scope | scope in rest :: scope in scopes;
      assert forall scope | scope in scopes :: scope == first || scope in rest;
    }
  }

  predicate CanEscalate(q: Request, route: Route) {
    exists other | other in q.allowed :: RouteRank(route) < RouteRank(other) <= RouteRank(q.maxRoute)
  }

  // ---- The decision on the quoted provider ----

  /** The decision a quote and an approval lead to. */
  function RulingOn(
      quote: QuoteAnswer, approval: ApprovalStatus, escalation: bool, route: Route, p: Provider,
      cache: CacheStatus): Decision
  {
    var place := Some(PlaceOf(route));
    match quote
    case QuoteFails => Stopped(BudgetDenied, cache, Known, BudgetError, Some(p), place)
    case QuoteDenied(configured) =>
      if configured then Stopped(BudgetDenied, cache, Known, BudgetRefused, Some(p), place)
      else Stopped(BudgetNotConfigured, cache, Known, NotConfigured, Some(p), place)
    case QuoteAllowed =>
      match approval
      case Refused => Stopped(ApprovalDenied, cache, Known, BudgetAllowed, Some(p), place, Refused)
      case Required =>
        Decision(NeedApproval, place, Some(p), ApprovalRequired, cache, BudgetAllowed, Known, true, Required, false)
      case _ =>
        Decision(ChoiceOf(route), place, Some(p), RouteSelected, cache, BudgetAllowed, Known, true, approval,
                 escalation)
  }

  function Ruling(w: World, s: State, q: Request, route: Route, p: Provider, cache: CacheStatus): Decision {
    RulingOn(w.quotes(p), ApprovalFor(w, s, q, route, p), CanEscalate(q, route), route, p, cache)
  }

  /** The transition that records a ruling. */
  function RulingStep(route: Route, d: Decision): Transition {
    Transition(StageOf(route), if d.reason == RouteSelected then Selected else Denied, d.reason)
  }

  // ---- The passes, as functions ----

  datatype Pass = Pass(
    decision: Option<Draft>, reason: Reason, pricing: PricingStatus, trace: seq<Transition>, quoted: seq<Provider>)

  datatype CachePass = CachePass(decision: Option<Draft>, status: CacheStatus, trace: seq<Transition>)

  function CacheDenial(reason: Reason, status: CacheStatus): CachePass {
    var trace := [Transition(CacheStage, Denied, reason)];
    CachePass(Some(Draft(Stopped(reason, status), trace)), status, trace)
  }

  function CacheServes(p: Provider): CachePass {
    var trace := [Transition(CacheStage, Selected, CacheHit)];
    CachePass(Some(Draft(Decision(ChooseCache, Some(OnCache), Some(p), CacheHit, Hit, BudgetNotApplicable,
                                  PricingNotApplicable, true, NotRequired, false), trace)), Hit, trace)
  }

  function OverCandidates(candidates: seq<Candidate>, status: CacheStatus): CachePass {
    if candidates == [] then
      CachePass(None, status,
                [Transition(CacheStage, Continue, if status == Invalidated then CacheInvalidated else CacheMiss)])
    else if !candidates[0].compatible then CacheDenial(PolicyContradiction, Invalidated)
    else
      match candidates[0].answer
      case LookupFails => CacheDenial(CacheUnavailable, CacheError)
      case CacheHitAnswer(p) => CacheServes(p)
      case QuarantinedAnswer => CacheDenial(CacheQuarantined, Quarantined)
      case InvalidatedAnswer => OverCandidates(candidates[1..], Invalidated)
      case OtherAnswer => OverCandidates(candidates[1..], status)
  }

  /** The remaining providers of a route; `last` is why the one before was passed over. */
  function OverProviders(
      w: World, s: State, q: Request, route: Route, providers: seq<Provider>, last: Reason, pricing: PricingStatus,
      priced: bool, cache: CacheStatus, trace: seq<Transition>): Pass
    decreases providers
  {
    if providers == [] then
      if priced then Pass(None, last, pricing, trace, [])
      else Pass(None, UnavailableReason(route), pricing,
                trace + [Transition(StageOf(route), Skipped, UnavailableReason(route))], [])
    else
      var p := providers[0];
      match SkipFor(w, s, q, p)
      case Some(Skip(reason, price)) =>
        OverProviders(w, s, q, route, providers[1..], reason, if price.Some? then price.value else pricing,
                      priced || price.Some?, cache, trace + [Transition(StageOf(route), Skipped, reason)])
      case None =>
        var ruling := Ruling(w, s, q, route, p, cache);
        var all := trace + [RulingStep(route, ruling)];
        Pass(Some(Draft(ruling, all)), ruling.reason, Known, all, [p])
  }

  function OverRoute(w: World, s: State, q: Request, route: Route, cache: CacheStatus, trace: seq<Transition>): Pass {
    OverProviders(w, s, q, route, ProvidersOf(route), UnavailableReason(route), PricingNotApplicable, false, cache,
                  trace)
  }

  /** The remaining routes. The result's decision is always there. */
  function OverRoutes(
      w: World, s: State, q: Request, routes: seq<Route>, last: Reason, cache: CacheStatus,
      trace: seq<Transition>): Pass
    decreases routes
  {
    if routes == [] then
      var all := trace + [Transition(FinalStage, Denied, last)];
      Pass(Some(Draft(Stopped(last, cache), all)), last, PricingNotApplicable, all, [])
    else
      var route := routes[0];
      match RouteClosed(w, s, q, route)
      case Some(reason) =>
        OverRoutes(w, s, q, routes[1..], reason, cache, trace + [Transition(StageOf(route), Skipped, reason)])
      case None =>
        var pass := OverRoute(w, s, q, route, cache, trace);
        if pass.decision.Some? then pass
        else if route != Local && (pass.reason == PricingUnknown || pass.reason == PricingStale) then
          var all := pass.trace + [Transition(FinalStage, Denied, pass.reason)];
          Pass(Some(Draft(Stopped(pass.reason, cache, pass.pricing), all)), pass.reason, pass.pricing, all, [])
        else OverRoutes(w, s, q, routes[1..], pass.reason, cache, pass.trace)
  }

  const ROUTES: seq<Route> := [Local, CheapCloud, Strong]

  function DeterministicDecision(cache: CacheStatus): Decision {
    Decision(ChooseDeterministic, Some(OnDeterministic), None, DeterministicCapability, cache, BudgetNotApplicable,
             PricingNotApplicable, true, NotRequired, false)
  }

  /** Behind the cache: deterministic tools, repeated failures, and the provider routes. */
  function OverStages(
      w: World, s: State, q: Request, cache: CacheStatus, trace: seq<Transition>): (Draft, seq<Provider>)
  {
    if q.deterministic then
      (Draft(DeterministicDecision(cache),
             trace + [Transition(DeterministicStage, Selected, DeterministicCapability)]), [])
    else
      var all := trace + [Transition(DeterministicStage, Continue, DeterministicUnresolved)];
      if HasRepeatedFailure(s, q.hash, q.error, q.diff) then
        (Draft(Stopped(RepeatedRequest, cache), all + [Transition(FinalStage, Denied, RepeatedRequest)]), [])
      else
        var pass := OverRoutes(w, s, q, ROUTES, NoProviderAvailable, cache, all);
        if pass.decision.Some? then (pass.decision.value, pass.quoted)
        else (Draft(Stopped(NoProviderAvailable, cache), all), [])
  }

  function Refusal(reason: Reason): Draft {
    Draft(Stopped(reason, NotLooked), [Transition(CacheStage, Denied, reason)])
  }

  /** The draft before the audit, and the providers quoted for it. */
  function Evaluated(w: World, q: Request): (Draft, seq<Provider>) {
    if !w.configValid then (Refusal(ConfigInvalid), [])
    else if w.state.None? then (Refusal(LedgerInvalid), [])
    else if q.dataClass == Secret then (Refusal(SecretDataDenied), [])
    else
      var found := OverCandidates(w.candidates, Miss);
      if found.decision.Some? then (found.decision.value, [])
      else OverStages(w, w.state.value, q, found.status, found.trace)
  }

  function WithoutFinal(trace: seq<Transition>): seq<Transition> {
    if trace == [] then []
    else
      var front := WithoutFinal(trace[..|trace| - 1]);
      if trace[|trace| - 1].stage == FinalStage then front else front + [trace[|trace| - 1]]
  }

  /** The decision that says that recording it failed. */
  function Unaudited(d: Draft): Draft {
    Draft(d.decision.(choice := Stop, place := None, provider := None, reason := AuditAppendFailed,
                      escalation := false), WithoutFinal(d.trace) + [Transition(FinalStage, Denied, AuditAppendFailed)])
  }

  function Audited(w: World, d: Draft): Draft {
    if w.audited then WithFinal(d) else Unaudited(WithFinal(d))
  }

  function Decided(w: World, q: Request): Draft {
    var (d, _) := Evaluated(w, q);
    if !w.configValid || w.state.None? then WithFinal(d) else Audited(w, d)
  }
}
