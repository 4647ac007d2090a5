/**
 Routing requests, decisions and transition traces, and what the decision contract accepts.
 */
module RoutingContracts {
  import opened Prelude

  datatype Route = Deterministic | Local | CheapCloud | Strong
  datatype Stage = CacheStage | DeterministicStage | LocalStage | CheapStage | StrongStage | FinalStage
  datatype Provider = LocalAi | Deepseek | Qwen | Codex | Claude
  datatype DataClass = Public | Internal | Sensitive | Secret
  datatype RiskClass = Low | Medium | High | Critical
  datatype Scope = ScopeLocal | ScopeCheapCloud | ScopeStrong | ScopeSensitiveCloud | ScopeSecondaryClaude

  datatype Reason =
    | CacheHit | CacheMiss | CacheInvalidated | CacheQuarantined | CacheUnavailable
    | SecretDataDenied | DeterministicCapability | DeterministicUnresolved
    | RouteNotAllowed | MaxRouteExceeded | ProviderDisabled | ProviderDegraded | ProviderUnavailable
    | ProviderHealthUnknown | DataClassDenied | RiskClassDenied | CapabilityDenied | LocalTaskNotAllowed
    | PricingStale | PricingUnknown | BudgetDenied | BudgetNotConfigured | ApprovalRequired | ApprovalDenied
    | LocalUnavailable | LocalInsufficient | CheapUnavailable | CheapInsufficient | StrongUnavailable
    | NoProviderAvailable | RepeatedRequest | ConfigInvalid | LedgerInvalid | PolicyContradiction
    | RouteSelected | AuditAppendFailed

  datatype Effect = Continue | Selected | Denied | Skipped
  datatype Transition = Transition(stage: Stage, effect: Effect, reason: Reason)

  datatype Choice =
    | ChooseCache | ChooseDeterministic | ChooseLocal | ChooseCheapCloud | ChooseStrong | NeedApproval | Stop
  datatype Place = OnCache | OnDeterministic | OnLocal | OnCheapCloud | OnStrong
  datatype CacheStatus = Hit | Miss | Invalidated | Quarantined | NotLooked | CacheError
  datatype BudgetStatus = BudgetNotApplicable | BudgetAllowed | BudgetRefused | NotConfigured | BudgetError
  datatype PricingStatus = PricingNotApplicable | Known | Stale | Unknown | PricingError
  datatype ApprovalStatus = NotRequired | Approved | Required | Refused

  datatype Decision = Decision(
    choice: Choice, place: Option<Place>, provider: Option<Provider>, reason: Reason, cache: CacheStatus,
    budget: BudgetStatus, pricing: PricingStatus, dataAllowed: bool, approval: ApprovalStatus, escalation: bool)

  datatype Draft = Draft(decision: Decision, trace: seq<Transition>)

  const MAX_TRACE: nat := 32

  function RouteRank(route: Route): nat {
    match route
    case Deterministic => 0
    case Local => 1
    case CheapCloud => 2
    case Strong => 3
  }

  function StageRank(stage: Stage): nat {
    match stage
    case CacheStage => 0
    case DeterministicStage => 1
    case LocalStage => 2
    case CheapStage => 3
    case StrongStage => 4
    case FinalStage => 5
  }

  predicate Ordered(trace: seq<Transition>) {
    forall i, j | 0 <= i < j < |trace| :: StageRank(trace[i].stage) <= StageRank(trace[j].stage)
  }

  predicate EndsInFinal(trace: seq<Transition>) {
    trace != [] && trace[|trace| - 1].stage == FinalStage
  }

  function ExpectedPlace(choice: Choice): Option<Place> {
    match choice
    case ChooseCache => Some(OnCache)
    case ChooseDeterministic => Some(OnDeterministic)
    case ChooseLocal => Some(OnLocal)
    case ChooseCheapCloud => Some(OnCheapCloud)
    case ChooseStrong => Some(OnStrong)
    case _ => None
  }

  predicate ConsistentPlace(d: Decision) {
    && (ExpectedPlace(d.choice).Some? ==> d.place == ExpectedPlace(d.choice))
    && (d.choice == NeedApproval ==>
        d.place == Some(OnLocal) || d.place == Some(OnCheapCloud) || d.place == Some(OnStrong))
  }

  predicate ConsistentProvider(d: Decision) {
    && (d.choice == ChooseDeterministic ==> d.provider.None?)
    && (d.choice.ChooseLocal? || d.choice.ChooseCheapCloud? || d.choice.ChooseStrong? || d.choice.NeedApproval? ==>
        d.provider.Some?)
    && (d.place.None? ==> d.provider.None?)
  }

  predicate Consistent(d: Decision) {
    ConsistentPlace(d) && ConsistentProvider(d)
  }

  /** The contract of a decision; a draft outside it is rejected with an exception. */
  predicate Acceptable(d: Draft) {
    && 1 <= |d.trace| <= MAX_TRACE && Ordered(d.trace) && EndsInFinal(d.trace)
    && Consistent(d.decision) && d.trace[|d.trace| - 1].reason == d.decision.reason
  }

  /** The loop compares neighbours only; the order it accepts is the order of all pairs. */
  method ValidateTransitionOrder(trace: seq<Transition>) returns (ok: bool)
    ensures ok <==> Ordered(trace) && EndsInFinal(trace)
  {
    var previous: int := -1;
    for i := 0 to |trace|
      invariant Ordered(trace[..i])
      invariant previous == if i == 0 then -1 else StageRank(trace[i - 1].stage)
      invariant forall j | 0 <= j < i :: StageRank(trace[j].stage) <= previous
    {
      var current := StageRank(trace[i].stage);
      if current < previous {
        assert i > 0 && StageRank(trace[i].stage) < StageRank(trace[i - 1].stage);
        return false;
      }
      previous := current;
    }
    ok := trace != [] && trace[|trace| - 1].stage == FinalStage;
    assert trace[..|trace|] == trace;
  }

  function FinalTransition(d: Decision): Transition {
    Transition(FinalStage, if d.choice == Stop then Denied else Selected, d.reason)
  }

  /** A final transition is added unless the trace ends in one. */
  function WithFinal(d: Draft): Draft {
    if EndsInFinal(d.trace) then d
    else d.(trace := d.trace + [FinalTransition(d.decision)])
  }

  function Stopped(
      reason: Reason, cache: CacheStatus, pricing: PricingStatus := PricingNotApplicable,
      budget: BudgetStatus := BudgetNotApplicable, provider: Option<Provider> := None, place: Option<Place> := None,
      approval: ApprovalStatus := NotRequired): Decision
  {
    Decision(Stop, place, provider, reason, cache, budget, pricing,
             reason !in {DataClassDenied, RiskClassDenied, CapabilityDenied, SecretDataDenied}, approval, false)
  }
}
