/**
 What the router decides: every decision meets the contract, and the provider it quotes is the first that
 passes every check, in the order of the routes' ranks and of the configured providers.
 */
module RouterProperties {
  import opened Prelude
  import opened RoutingContracts
  import opened RoutingState
  import opened CostRouter

  // ---- Every decision is accepted ----

  predicate PriceReason(reason: Reason) {
    reason == PricingUnknown || reason == PricingStale
  }

  /** An ordered trace of at most `n` transitions, none behind the stage of rank `rank`. */
  predicate UpTo(trace: seq<Transition>, rank: nat, n: nat) {
    Ordered(trace) && |trace| <= n && forall i | 0 <= i < |trace| :: StageRank(trace[i].stage) <= rank
  }

  lemma UpToExtends(trace: seq<Transition>, rank: nat, n: nat, t: Transition)
    requires UpTo(trace, rank, n) && rank <= StageRank(t.stage)
    ensures UpTo(trace + [t], StageRank(t.stage), n + 1)
  {
  }

  /** A trace that ends with the reason of the decision. */
  predicate Explains(trace: seq<Transition>, reason: Reason, n: nat) {
    trace != [] && UpTo(trace, 5, n) && trace[|trace| - 1].reason == reason
  }

  /** A draft that needs at most a final transition to be acceptable. */
  predicate AlmostAcceptable(d: Draft, n: nat) {
    Consistent(d.decision) && Explains(d.trace, d.decision.reason, n)
  }

  lemma TraceExplains(trace: seq<Transition>, rank: nat, n: nat, t: Transition)
    requires UpTo(trace, rank, n) && rank <= StageRank(t.stage)
    ensures Explains(trace + [t], t.reason, n + 1) && UpTo(trace + [t], StageRank(t.stage), n + 1)
  {
    UpToExtends(trace, rank, n, t);
  }

  lemma RulingIsConsistent(
      quote: QuoteAnswer, approval: ApprovalStatus, escalation: bool, route: Route, p: Provider, cache: CacheStatus)
    requires route != Deterministic
    ensures Consistent(RulingOn(quote, approval, escalation, route, p, cache))
  {
  }

  lemma {:induction false} ProvidersKeepOrder(
      w: World, s: State, q: Request, route: Route, providers: seq<Provider>, last: Reason, pricing: PricingStatus,
      priced: bool, cache: CacheStatus, trace: seq<Transition>, n: nat)
    requires route != Deterministic && UpTo(trace, StageRank(StageOf(route)), n)
    ensures var pass := OverProviders(w, s, q, route, providers, last, pricing, priced, cache, trace);
            && UpTo(pass.trace, StageRank(StageOf(route)), n + |providers| + 1)
            && (pass.decision.Some? ==> AlmostAcceptable(pass.decision.value, n + |providers| + 1))
    decreases providers
  {
    var stage := StageOf(route);
    if providers == [] {
      UpToExtends(trace, StageRank(stage), n, Transition(stage, Skipped, UnavailableReason(route)));
    } else {
      match SkipFor(w, s, q, providers[0]) {
        case Some(Skip(reason, price)) =>
          UpToExtends(trace, StageRank(stage), n, Transition(stage, Skipped, reason));
          ProvidersKeepOrder(w, s, q, route, providers[1..], reason, if price.Some? then price.value else pricing,
                             priced || price.Some?, cache, trace + [Transition(stage, Skipped, reason)], n + 1);
        case None =>
          var (p, d) := (providers[0], Ruling(w, s, q, route, providers[0], cache));
          RulingIsConsistent(w.quotes(p), ApprovalFor(w, s, q, route, p), CanEscalate(q, route), route, p, cache);
          TraceExplains(trace, StageRank(stage), n, RulingStep(route, d));
      }
    }
  }

  /** At most three transitions a route, and a final one. */
  function Longest(routes: seq<Route>): nat {
    3 * |routes| + 1
  }

  predicate Rising(routes: seq<Route>, rank: nat) {
    && (forall i | 0 <= i < |routes| :: routes[i] != Deterministic && rank <= StageRank(StageOf(routes[i])))
    && (forall i, j | 0 <= i < j < |routes| :: StageRank(StageOf(routes[i])) < StageRank(StageOf(routes[j])))
  }

  lemma StopIsAlmostAcceptable(
      trace: seq<Transition>, rank: nat, n: nat, reason: Reason, cache: CacheStatus, pricing: PricingStatus)
    requires UpTo(trace, rank, n) && rank <= 5
    ensures AlmostAcceptable(Draft(Stopped(reason, cache, pricing), trace + [Transition(FinalStage, Denied, reason)]),
                             n + 1)
  {
    TraceExplains(trace, rank, n, Transition(FinalStage, Denied, reason));
  }

  lemma {:induction false} RoutesKeepOrder(
      w: World, s: State, q: Request, routes: seq<Route>, last: Reason, cache: CacheStatus, trace: seq<Transition>,
      rank: nat, n: nat)
    requires Rising(routes, rank) && rank < 5 && UpTo(trace, rank, n)
    ensures var pass := OverRoutes(w, s, q, routes, last, cache, trace);
            pass.decision.Some? && AlmostAcceptable(pass.decision.value, n + Longest(routes))
    decreases routes
  {
    if routes == [] {
      StopIsAlmostAcceptable(trace, rank, n, last, cache, PricingNotApplicable);
    } else {
      var route, stage := routes[0], StageOf(routes[0]);
      assert UpTo(trace, StageRank(stage), n) && Rising(routes[1..], StageRank(stage));
      match RouteClosed(w, s, q, route) {
        case Some(reason) =>
          UpToExtends(trace, StageRank(stage), n, Transition(stage, Skipped, reason));
          RoutesKeepOrder(w, s, q, routes[1..], reason, cache, trace + [Transition(stage, Skipped, reason)],
                          StageRank(stage), n + 1);
        case None => OpenRouteKeepsOrder(w, s, q, routes, last, cache, trace, n);
      }
    }
  }

  lemma {:induction false} OpenRouteKeepsOrder(
      w: World, s: State, q: Request, routes: seq<Route>, last: Reason, cache: CacheStatus, trace: seq<Transition>,
      n: nat)
    requires routes != [] && RouteClosed(w, s, q, routes[0]).None? && routes[0] != Deterministic
    requires UpTo(trace, StageRank(StageOf(routes[0])), n) && Rising(routes[1..], StageRank(StageOf(routes[0])))
    ensures var pass := OverRoutes(w, s, q, routes, last, cache, trace);
            pass.decision.Some? && AlmostAcceptable(pass.decision.value, n + Longest(routes))
    decreases routes, 0
  {
    var route := routes[0];
    var rank := StageRank(StageOf(route));
    var pass := OverRoute(w, s, q, route, cache, trace);
    PassKeepsOrder(w, s, q, route, cache, trace, n);
    if pass.decision.Some? {
      LongerIsFine(pass.decision.value, n + 3, n + Longest(routes));
    } else if route != Local && PriceReason(pass.reason) {
      StopIsAlmostAcceptable(pass.trace, rank, n + 3, pass.reason, cache, pass.pricing);
      var stop := Draft(Stopped(pass.reason, cache, pass.pricing),
                        pass.trace + [Transition(FinalStage, Denied, pass.reason)]);
      LongerIsFine(stop, n + 4, n + Longest(routes));
    } else {
      RoutesKeepOrder(w, s, q, routes[1..], pass.reason, cache, pass.trace, rank, n + 3);
    }
  }

  lemma PassKeepsOrder(w: World, s: State, q: Request, route: Route, cache: CacheStatus, trace: seq<Transition>, n: nat)
    requires route != Deterministic && UpTo(trace, StageRank(StageOf(route)), n)
    ensures var pass := OverRoute(w, s, q, route, cache, trace);
            && UpTo(pass.trace, StageRank(StageOf(route)), n + 3)
            && (pass.decision.Some? ==> AlmostAcceptable(pass.decision.value, n + 3))
  {
    assert |ProvidersOf(route)| <= 2;
    ProvidersKeepOrder(w, s, q, route, ProvidersOf(route), UnavailableReason(route), PricingNotApplicable, false,
                       cache, trace, n);
  }

  lemma LongerIsFine(d: Draft, n: nat, m: nat)
    requires AlmostAcceptable(d, n) && n <= m
    ensures AlmostAcceptable(d, m)
  {
  }

  lemma OneStep(t: Transition)
    ensures UpTo([t], StageRank(t.stage), 1) && Explains([t], t.reason, 1)
  {
  }

  lemma CandidatesEnd(candidates: seq<Candidate>, status: CacheStatus)
    requires candidates == [] || !candidates[0].compatible
             || !(candidates[0].answer.InvalidatedAnswer? || candidates[0].answer.OtherAnswer?)
    ensures var found := OverCandidates(candidates, status);
            && UpTo(found.trace, 0, 1)
            && (found.decision.Some? ==> AlmostAcceptable(found.decision.value, 1))
  {
    OneStep(OverCandidates(candidates, status).trace[0]);
  }

  lemma {:induction false} CandidatesKeepOrder(candidates: seq<Candidate>, status: CacheStatus)
    ensures var found := OverCandidates(candidates, status);
            && UpTo(found.trace, 0, 1)
            && (found.decision.Some? ==> AlmostAcceptable(found.decision.value, 1))
    decreases candidates
  {
    if candidates != [] && candidates[0].compatible
       && (candidates[0].answer.InvalidatedAnswer? || candidates[0].answer.OtherAnswer?) {
      CandidatesKeepOrder(candidates[1..], if candidates[0].answer.InvalidatedAnswer? then Invalidated else status);
    } else {
      CandidatesEnd(candidates, status);
    }
  }

  lemma DeterministicIsAlmostAcceptable(cache: CacheStatus, trace: seq<Transition>)
    requires UpTo(trace, 0, 1)
    ensures AlmostAcceptable(
              Draft(DeterministicDecision(cache),
                    trace + [Transition(DeterministicStage, Selected, DeterministicCapability)]), 2)
  {
    TraceExplains(trace, 0, 1, Transition(DeterministicStage, Selected, DeterministicCapability));
  }

  lemma RoutesAreAlmostAcceptable(w: World, s: State, q: Request, cache: CacheStatus, trace: seq<Transition>)
    requires UpTo(trace, 1, 2)
    ensures var pass := OverRoutes(w, s, q, ROUTES, NoProviderAvailable, cache, trace);
            pass.decision.Some? && AlmostAcceptable(pass.decision.value, 12)
  {
    assert Rising(ROUTES, 1) && Longest(ROUTES) == 10;
    RoutesKeepOrder(w, s, q, ROUTES, NoProviderAvailable, cache, trace, 1, 2);
  }

  lemma StagesAreAlmostAcceptable(w: World, s: State, q: Request, cache: CacheStatus, trace: seq<Transition>)
    requires UpTo(trace, 0, 1)
    ensures AlmostAcceptable(OverStages(w, s, q, cache, trace).0, 12)
  {
    var d := OverStages(w, s, q, cache, trace).0;
    if q.deterministic {
      DeterministicIsAlmostAcceptable(cache, trace);
      LongerIsFine(d, 2, 12);
    } else {
      var all := trace + [Transition(DeterministicStage, Continue, DeterministicUnresolved)];
      UpToExtends(trace, 0, 1, Transition(DeterministicStage, Continue, DeterministicUnresolved));
      if HasRepeatedFailure(s, q.hash, q.error, q.diff) {
        StopIsAlmostAcceptable(all, 1, 2, RepeatedRequest, cache, PricingNotApplicable);
        LongerIsFine(d, 3, 12);
      } else {
        RoutesAreAlmostAcceptable(w, s, q, cache, all);
      }
    }
  }

  lemma RefusalIsAlmostAcceptable(reason: Reason)
    ensures AlmostAcceptable(Refusal(reason), 1)
  {
    OneStep(Transition(CacheStage, Denied, reason));
  }

  lemma EvaluatedIsAlmostAcceptable(w: World, q: Request)
    ensures AlmostAcceptable(Evaluated(w, q).0, 12)
  {
    var d := Evaluated(w, q).0;
    if !w.configValid || w.state.None? || q.dataClass == Secret {
      RefusalIsAlmostAcceptable(d.decision.reason);
      LongerIsFine(d, 1, 12);
    } else {
      var found := OverCandidates(w.candidates, Miss);
      CandidatesKeepOrder(w.candidates, Miss);
      if found.decision.Some? {
        LongerIsFine(d, 1, 12);
      } else {
        StagesAreAlmostAcceptable(w, w.state.value, q, found.status, found.trace);
      }
    }
  }

  lemma {:induction false} WithoutFinalIs(trace: seq<Transition>, n: nat)
    requires UpTo(trace, 5, n)
    ensures UpTo(WithoutFinal(trace), 4, n)
    ensures |WithoutFinal(trace)| <= |trace| && (EndsInFinal(trace) ==> |WithoutFinal(trace)| < |trace|)
    decreases trace
  {
    if trace != [] {
      var t, front := trace[|trace| - 1], trace[..|trace| - 1];
      WithoutFinalIs(front, n);
      if t.stage != FinalStage {
        forall i | 0 <= i < |WithoutFinal(front)|
          ensures StageRank(WithoutFinal(front)[i].stage) <= StageRank(t.stage)
        {
          WithoutFinalFrom(front, i);
        }
      }
    }
  }

  lemma {:induction false} WithoutFinalFrom(trace: seq<Transition>, i: nat)
    requires i < |WithoutFinal(trace)|
    ensures WithoutFinal(trace)[i] in trace
    decreases trace
  {
    var front := trace[..|trace| - 1];
    if i < |WithoutFinal(front)| {
      WithoutFinalFrom(front, i);
      assert forall t | t in front :: t in trace;
    }
  }

  lemma FinalIsAcceptable(d: Draft, n: nat)
    requires AlmostAcceptable(d, n) && n < MAX_TRACE
    ensures Acceptable(WithFinal(d)) && UpTo(WithFinal(d).trace, 5, n + 1)
  {
    if !EndsInFinal(d.trace) {
      UpToExtends(d.trace, 5, n, FinalTransition(d.decision));
    }
  }

  lemma FailedAuditIsAcceptable(d: Draft, n: nat)
    requires UpTo(d.trace, 5, n) && n < MAX_TRACE
    ensures Acceptable(Unaudited(d))
  {
    WithoutFinalIs(d.trace, n);
    UpToExtends(WithoutFinal(d.trace), 4, n, Transition(FinalStage, Denied, AuditAppendFailed));
  }

  /**
   Whatever the request, the configuration, the ledger, the cache and the budget say, the contract accepts the
   decision.
   */
  lemma EveryDecisionIsAccepted(w: World, q: Request)
    ensures Acceptable(Decided(w, q))
  {
    var d := Evaluated(w, q).0;
    EvaluatedIsAlmostAcceptable(w, q);
    FinalIsAcceptable(d, 12);
    FailedAuditIsAcceptable(WithFinal(d), 13);
  }

  // ---- The cheapest candidate first ----

  predicate Open(w: World, s: State, q: Request, route: Route) {
    RouteClosed(w, s, q, route).None?
  }

  predicate Candidate(w: World, s: State, q: Request, route: Route, p: Provider) {
    route != Deterministic && p in ProvidersOf(route) && Open(w, s, q, route) && Eligible(w, s, q, p)
  }

  function Position(p: Provider): nat {
    match p
    case LocalAi => 0
    case Deepseek => 0
    case Qwen => 1
    case Codex => 0
    case Claude => 1
  }

  predicate Before(route: Route, p: Provider, route': Route, p': Provider) {
    RouteRank(route) < RouteRank(route') || (route == route' && Position(p) < Position(p'))
  }

  /** An open cloud route without a candidate whose last provider fails on its price stops the search. */
  predicate StopsOnPrice(w: World, s: State, q: Request, route: Route) {
    && (route == CheapCloud || route == Strong) && Open(w, s, q, route)
    && (forall p | p in ProvidersOf(route) :: !Eligible(w, s, q, p))
    && SkipFor(w, s, q, ProvidersOf(route)[1]).Some? && SkipFor(w, s, q, ProvidersOf(route)[1]).value.price.Some?
  }

  /** The first candidate, in route-rank then provider order, and nothing before it stops the search. */
  ghost predicate IsFirst(w: World, s: State, q: Request, route: Route, p: Provider) {
    && Candidate(w, s, q, route, p)
    && (forall route', p' | Candidate(w, s, q, route', p') :: !Before(route', p', route, p))
    && (forall route' | RouteRank(route') < RouteRank(route) :: !StopsOnPrice(w, s, q, route'))
  }

  ghost predicate NoCandidate(w: World, s: State, q: Request) {
    forall route, p :: !IsFirst(w, s, q, route, p)
  }

  function FirstIn(w: World, s: State, q: Request, providers: seq<Provider>): Option<Provider> {
    if providers == [] then None
    else if Eligible(w, s, q, providers[0]) then Some(providers[0])
    else FirstIn(w, s, q, providers[1..])
  }

  /** The decision is the ruling on this provider, behind some trace. */
  predicate Ruled(w: World, s: State, q: Request, route: Route, p: Provider, cache: CacheStatus, pass: Pass) {
    pass.decision.Some? && pass.decision.value.decision == Ruling(w, s, q, route, p, cache)
  }

  /** What the pass over a route's providers comes to. */
  ghost predicate ComesTo(
      w: World, s: State, q: Request, route: Route, first: Option<Provider>, cache: CacheStatus, pass: Pass)
  {
    match first
    case Some(p) => pass.quoted == [p] && Ruled(w, s, q, route, p, cache, pass)
    case None => pass.quoted == [] && pass.decision.None?
  }

  lemma {:induction false} ProvidersComeTo(
      w: World, s: State, q: Request, route: Route, providers: seq<Provider>, last: Reason, pricing: PricingStatus,
      priced: bool, cache: CacheStatus, trace: seq<Transition>)
    ensures ComesTo(w, s, q, route, FirstIn(w, s, q, providers), cache,
                    OverProviders(w, s, q, route, providers, last, pricing, priced, cache, trace))
    decreases providers
  {
    if providers != [] {
      match SkipFor(w, s, q, providers[0]) {
        case Some(Skip(reason, price)) =>
          ProvidersComeTo(w, s, q, route, providers[1..], reason, if price.Some? then price.value else pricing,
                          priced || price.Some?, cache, trace + [Transition(StageOf(route), Skipped, reason)]);
        case None => assert [providers[0]] == [FirstIn(w, s, q, providers).value];
      }
    }
  }

  lemma SkipReasons(w: World, s: State, q: Request, p: Provider)
    requires SkipFor(w, s, q, p).Some?
    ensures PriceReason(SkipFor(w, s, q, p).value.reason) <==> SkipFor(w, s, q, p).value.price.Some?
  {
  }

  /** A pass over two providers without a decision ends on a price exactly when the last one's price ruled it out. */
  lemma PassEndsOnPrice(
      w: World, s: State, q: Request, route: Route, a: Provider, b: Provider, last: Reason, cache: CacheStatus,
      trace: seq<Transition>)
    requires SkipFor(w, s, q, a).Some? && SkipFor(w, s, q, b).Some? && !PriceReason(UnavailableReason(route))
    ensures var pass := OverProviders(w, s, q, route, [a, b], last, PricingNotApplicable, false, cache, trace);
            PriceReason(pass.reason) <==> SkipFor(w, s, q, b).value.price.Some?
  {
    var (Skip(reasonA, priceA), Skip(reasonB, priceB)) := (SkipFor(w, s, q, a).value, SkipFor(w, s, q, b).value);
    var pricingA := if priceA.Some? then priceA.value else PricingNotApplicable;
    var pricingB := if priceB.Some? then priceB.value else pricingA;
    var traceA := trace + [Transition(StageOf(route), Skipped, reasonA)];
    var traceB := traceA + [Transition(StageOf(route), Skipped, reasonB)];
    SkipReasons(w, s, q, b);
    assert [a, b][1..] == [b] && [b][1..] == [];
    assert OverProviders(w, s, q, route, [a, b], last, PricingNotApplicable, false, cache, trace)
        == OverProviders(w, s, q, route, [b], reasonA, pricingA, priceA.Some?, cache, traceA);
    assert OverProviders(w, s, q, route, [b], reasonA, pricingA, priceA.Some?, cache, traceA)
        == OverProviders(w, s, q, route, [], reasonB, pricingB, priceA.Some? || priceB.Some?, cache, traceB);
  }

  lemma RouteEndsOnPrice(
      w: World, s: State, q: Request, route: Route, cache: CacheStatus, trace: seq<Transition>)
    requires route == CheapCloud || route == Strong
    requires Open(w, s, q, route) && FirstIn(w, s, q, ProvidersOf(route)).None?
    ensures PriceReason(OverRoute(w, s, q, route, cache, trace).reason) <==> StopsOnPrice(w, s, q, route)
  {
    FirstInIs(w, s, q, route);
    var all := ProvidersOf(route);
    assert all[0] in all && all[1] in all && all == [all[0], all[1]];
    PassEndsOnPrice(w, s, q, route, all[0], all[1], UnavailableReason(route), cache, trace);
  }

  /** The search over the routes: the first route with a candidate, unless a price stops the search before it. */
  function Searched(w: World, s: State, q: Request, routes: seq<Route>): Option<(Route, Provider)> {
    if routes == [] then None
    else if !Open(w, s, q, routes[0]) then Searched(w, s, q, routes[1..])
    else
      match FirstIn(w, s, q, ProvidersOf(routes[0]))
      case Some(p) => Some((routes[0], p))
      case None => if StopsOnPrice(w, s, q, routes[0]) then None else Searched(w, s, q, routes[1..])
  }

  predicate Nowhere(d: Decision) {
    d.choice == Stop && d.provider.None? && d.place.None?
  }

  /** Exactly the first candidate is quoted, and the decision is the one its quote and its approval lead to. */
  ghost predicate Verdict(
      w: World, s: State, q: Request, found: Option<(Route, Provider)>, cache: CacheStatus, pass: Pass)
  {
    match found
    case Some((route, p)) =>
      pass.quoted == [p] && Ruled(w, s, q, route, p, cache, pass)
    case None =>
      pass.quoted == [] && pass.decision.Some? && Nowhere(pass.decision.value.decision)
  }

  /** The first eligible one of some providers. */
  predicate FirstAmong(w: World, s: State, q: Request, providers: seq<Provider>, first: Option<Provider>) {
    match first
    case None => forall i | 0 <= i < |providers| :: !Eligible(w, s, q, providers[i])
    case Some(p) =>
      p in providers && Eligible(w, s, q, p)
      && forall i | 0 <= i < |providers| && Eligible(w, s, q, providers[i]) :: Position(p) <= Position(providers[i])
  }

  lemma FirstInIs(w: World, s: State, q: Request, route: Route)
    ensures FirstAmong(w, s, q, ProvidersOf(route), FirstIn(w, s, q, ProvidersOf(route)))
  {
    match route
    case Local => OneProvider(w, s, q, LocalAi);
    case CheapCloud => TwoProviders(w, s, q, Deepseek, Qwen);
    case Strong => TwoProviders(w, s, q, Codex, Claude);
    case Deterministic =>
  }

  lemma OneProvider(w: World, s: State, q: Request, p: Provider)
    ensures FirstAmong(w, s, q, [p], FirstIn(w, s, q, [p]))
  {
    assert [p][1..] == [] && p in [p];
  }

  lemma TwoProviders(w: World, s: State, q: Request, a: Provider, b: Provider)
    requires Position(a) < Position(b)
    ensures FirstAmong(w, s, q, [a, b], FirstIn(w, s, q, [a, b]))
  {
    assert [a, b][1..] == [b] && [b][1..] == [] && a in [a, b] && b in [a, b];
    assert FirstIn(w, s, q, [b]) == if Eligible(w, s, q, b) then Some(b) else None;
  }

  lemma {:induction false} RoutesComeTo(
      w: World, s: State, q: Request, routes: seq<Route>, last: Reason, cache: CacheStatus, trace: seq<Transition>)
    requires forall i | 0 <= i < |routes| :: routes[i] != Deterministic
    ensures Verdict(w, s, q, Searched(w, s, q, routes), cache, OverRoutes(w, s, q, routes, last, cache, trace))
    decreases routes
  {
    if routes != [] {
      var route, rest := routes[0], routes[1..];
      match RouteClosed(w, s, q, route) {
        case Some(reason) =>
          RoutesComeTo(w, s, q, rest, reason, cache, trace + [Transition(StageOf(route), Skipped, reason)]);
        case None =>
          var all := ProvidersOf(route);
          var pass := OverRoute(w, s, q, route, cache, trace);
          ProvidersComeTo(w, s, q, route, all, UnavailableReason(route), PricingNotApplicable, false, cache, trace);
          FirstInIs(w, s, q, route);
          if pass.decision.None? {
            if route != Local {
              RouteEndsOnPrice(w, s, q, route, cache, trace);
            }
            RoutesComeTo(w, s, q, rest, pass.reason, cache, pass.trace);
          }
      }
    }
  }

  ghost predicate NothingIn(w: World, s: State, q: Request, route: Route) {
    (forall p :: !Candidate(w, s, q, route, p)) && !StopsOnPrice(w, s, q, route)
  }

  lemma FirstOfRoute(w: World, s: State, q: Request, route: Route, p: Provider)
    requires route != Deterministic && Open(w, s, q, route) && FirstIn(w, s, q, ProvidersOf(route)) == Some(p)
    requires forall route' | RouteRank(route') < RouteRank(route) :: NothingIn(w, s, q, route')
    ensures IsFirst(w, s, q, route, p)
  {
    FirstInIs(w, s, q, route);
    forall route', p' | Candidate(w, s, q, route', p')
      ensures !Before(route', p', route, p)
    {
    }
  }

  /** Behind the last route that is looked at there is no first candidate. */
  lemma NoneFirst(w: World, s: State, q: Request, last: Route)
    requires forall route, p | RouteRank(route) <= RouteRank(last) :: !Candidate(w, s, q, route, p)
    requires last == Strong || StopsOnPrice(w, s, q, last)
    ensures NoCandidate(w, s, q)
  {
    forall route, p
      ensures !IsFirst(w, s, q, route, p)
    {
    }
  }

  lemma NothingInRoute(w: World, s: State, q: Request, route: Route)
    requires !Open(w, s, q, route) || FirstIn(w, s, q, ProvidersOf(route)).None?
    ensures forall p :: !Candidate(w, s, q, route, p)
  {
    FirstInIs(w, s, q, route);
  }

  /** The search finds the first candidate, and finds none exactly when there is none. */
  lemma SearchFindsFirst(w: World, s: State, q: Request)
    ensures match Searched(w, s, q, ROUTES)
            case Some((route, p)) => IsFirst(w, s, q, route, p)
            case None => NoCandidate(w, s, q)
  {
    assert NothingIn(w, s, q, Deterministic);
    assert ROUTES[0] == Local && ROUTES[1..] == [CheapCloud, Strong];
    if Open(w, s, q, Local) && FirstIn(w, s, q, ProvidersOf(Local)).Some? {
      FirstOfRoute(w, s, q, Local, FirstIn(w, s, q, ProvidersOf(Local)).value);
    } else {
      NothingInRoute(w, s, q, Local);
      SearchBeyondLocal(w, s, q);
    }
  }

  lemma SearchBeyondLocal(w: World, s: State, q: Request)
    requires NothingIn(w, s, q, Deterministic) && NothingIn(w, s, q, Local)
    ensures match Searched(w, s, q, [CheapCloud, Strong])
            case Some((route, p)) => IsFirst(w, s, q, route, p)
            case None => NoCandidate(w, s, q)
  {
    assert [CheapCloud, Strong][1..] == [Strong];
    if Open(w, s, q, CheapCloud) && FirstIn(w, s, q, ProvidersOf(CheapCloud)).Some? {
      FirstOfRoute(w, s, q, CheapCloud, FirstIn(w, s, q, ProvidersOf(CheapCloud)).value);
    } else {
      NothingInRoute(w, s, q, CheapCloud);
      if StopsOnPrice(w, s, q, CheapCloud) {
        NoneFirst(w, s, q, CheapCloud);
      } else {
        SearchBeyondCheap(w, s, q);
      }
    }
  }

  lemma SearchBeyondCheap(w: World, s: State, q: Request)
    requires NothingIn(w, s, q, Deterministic) && NothingIn(w, s, q, Local) && NothingIn(w, s, q, CheapCloud)
    ensures match Searched(w, s, q, [Strong])
            case Some((route, p)) => IsFirst(w, s, q, route, p)
            case None => NoCandidate(w, s, q)
  {
    assert [Strong][1..] == [];
    if Open(w, s, q, Strong) && FirstIn(w, s, q, ProvidersOf(Strong)).Some? {
      FirstOfRoute(w, s, q, Strong, FirstIn(w, s, q, ProvidersOf(Strong)).value);
    } else {
      NothingInRoute(w, s, q, Strong);
      NoneFirst(w, s, q, Strong);
    }
  }

  lemma FirstIsUnique(w: World, s: State, q: Request, route: Route, p: Provider, route': Route, p': Provider)
    requires IsFirst(w, s, q, route, p) && IsFirst(w, s, q, route', p')
    ensures route == route' && p == p'
  {
    assert !Before(route, p, route', p') && !Before(route', p', route, p);
  }

  /** The router has reached the provider routes. */
  predicate ReachesRoutes(w: World, q: Request) {
    && w.configValid && w.state.Some? && q.dataClass != Secret && OverCandidates(w.candidates, Miss).decision.None?
    && !q.deterministic && !HasRepeatedFailure(w.state.value, q.hash, q.error, q.diff)
  }

  /**
   The only provider quoted is the first candidate; its quote and its approval alone decide, so nothing costlier is
   tried after a refusal. Without a candidate, and before the provider routes, nothing is quoted.
   */
  lemma CheapestFirst(w: World, q: Request)
    ensures !ReachesRoutes(w, q) ==> Evaluated(w, q).1 == []
    ensures ReachesRoutes(w, q) ==>
              var s, (d, quoted), cache := w.state.value, Evaluated(w, q), OverCandidates(w.candidates, Miss).status;
              if NoCandidate(w, s, q) then quoted == [] && Nowhere(d.decision)
              else exists route, p ::
                     IsFirst(w, s, q, route, p) && quoted == [p] && d.decision == Ruling(w, s, q, route, p, cache)
  {
    if ReachesRoutes(w, q) {
      var s, found := w.state.value, OverCandidates(w.candidates, Miss);
      var trace := found.trace + [Transition(DeterministicStage, Continue, DeterministicUnresolved)];
      RoutesComeTo(w, s, q, ROUTES, NoProviderAvailable, found.status, trace);
      SearchFindsFirst(w, s, q);
    }
  }
}
