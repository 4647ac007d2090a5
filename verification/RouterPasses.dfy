/**
 The router's passes as it makes them: each appends to one trace, and the loops stop at the first decision.
 */
module RouterPasses {
  import opened Prelude
  import opened RoutingContracts
  import opened RoutingState
  import opened CostRouter

  /** The quotes asked for so far, and some more. */
  predicate QuotedAfter(before: seq<Provider>, more: seq<Provider>, all: seq<Provider>) {
    all == before + more
  }

  lemma NoneQuotedBefore(more: seq<Provider>)
    ensures [] + more == more
  {
  }

  class Evaluation {
    const world: World
    const request: Request
    var trace: seq<Transition>
    var quoted: seq<Provider>

    constructor (world: World, request: Request)
      ensures this.world == world && this.request == request && trace == [] && quoted == []
    {
      this.world, this.request, trace, quoted := world, request, [], [];
    }

    method Push(stage: Stage, effect: Effect, reason: Reason)
      modifies this`trace
      ensures trace == old(trace) + [Transition(stage, effect, reason)]
      ensures old(trace) == [] ==> trace == [Transition(stage, effect, reason)]
    {
      trace := trace + [Transition(stage, effect, reason)];
    }

    method EvaluateCache() returns (decision: Option<Draft>, status: CacheStatus)
      requires trace == []
      modifies this`trace
      ensures CachePass(decision, status, trace) == OverCandidates(world.candidates, Miss)
    {
      status := Miss;
      for i := 0 to |world.candidates|
        invariant trace == []
        invariant OverCandidates(world.candidates[i..], status) == OverCandidates(world.candidates, Miss)
      {
        var candidate := world.candidates[i];
        assert world.candidates[i..][0] == candidate && world.candidates[i..][1..] == world.candidates[i + 1..];
        if !candidate.compatible {
          Push(CacheStage, Denied, PolicyContradiction);
          return Some(Draft(Stopped(PolicyContradiction, Invalidated), trace)), Invalidated;
        }
        match candidate.answer {
          case LookupFails =>
            Push(CacheStage, Denied, CacheUnavailable);
            return Some(Draft(Stopped(CacheUnavailable, CacheError), trace)), CacheError;
          case CacheHitAnswer(p) =>
            Push(CacheStage, Selected, CacheHit);
            return CacheServes(p).decision, Hit;
          case QuarantinedAnswer =>
            Push(CacheStage, Denied, CacheQuarantined);
            return Some(Draft(Stopped(CacheQuarantined, Quarantined), trace)), Quarantined;
          case InvalidatedAnswer => status := Invalidated;
          case OtherAnswer =>
        }
      }
      assert world.candidates[|world.candidates|..] == [];
      Push(CacheStage, Continue, if status == Invalidated then CacheInvalidated else CacheMiss);
      decision := None;
    }

    method EvaluateProviderRoute(state: State, route: Route, cache: CacheStatus)
      returns (decision: Option<Draft>, reason: Reason, pricing: PricingStatus)
      modifies this
      ensures var pass := OverRoute(world, state, request, route, cache, old(trace));
              && pass.decision == decision && pass.reason == reason && pass.pricing == pricing && pass.trace == trace
              && quoted == if decision.Some? then old(quoted) + pass.quoted else old(quoted)
    {
      var providers := ProvidersOf(route);
      var priced := false;
      reason, pricing := UnavailableReason(route), PricingNotApplicable;
      ghost var pass := OverRoute(world, state, request, route, cache, trace);
      for i := 0 to |providers|
        invariant quoted == old(quoted)
        invariant pass == OverProviders(world, state, request, route, providers[i..], reason, pricing, priced, cache,
                                        trace)
      {
        var p := providers[i];
        assert providers[i..][0] == p && providers[i..][1..] == providers[i + 1..];
        var refused := PassedOver(world, state, request, p);
        if refused.Some? {
          Push(StageOf(route), Skipped, refused.value);
          reason := refused.value;
          continue;
        }
        var price := PriceRefusal(world.prices(p));
        if price.Some? {
          pricing, reason, priced := price.value.0, price.value.1, true;
          Push(StageOf(route), Skipped, reason);
          continue;
        }
        decision, reason := Rule(state, route, p, cache);
        return decision, reason, Known;
      }
      assert providers[|providers|..] == [];
      decision := None;
      if !priced {
        reason := UnavailableReason(route);
        Push(StageOf(route), Skipped, reason);
      }
    }

    /** The budget is asked for a quote, and the quote and the approval decide. */
    method Rule(state: State, route: Route, p: Provider, cache: CacheStatus)
      returns (decision: Option<Draft>, reason: Reason)
      modifies this
      ensures var ruling := Ruling(world, state, request, route, p, cache);
              && trace == old(trace) + [RulingStep(route, ruling)]
              && decision == Some(Draft(ruling, trace)) && reason == ruling.reason && quoted == old(quoted) + [p]
    {
      quoted := quoted + [p];
      var quote := world.quotes(p);
      var approval := ApprovalFor(world, state, request, route, p);
      var ruling := RulingOn(quote, approval, CanEscalate(request, route), route, p, cache);
      Push(StageOf(route), RulingStep(route, ruling).effect, ruling.reason);
      return Some(Draft(ruling, trace)), ruling.reason;
    }

    /** One turn of the loop over the routes; `rest` are the routes behind this one. */
    method ConsiderRoute(state: State, route: Route, cache: CacheStatus, last: Reason, ghost routes: seq<Route>)
      returns (decision: Option<Draft>, reason: Reason)
      requires routes != [] && routes[0] == route
      modifies this
      ensures var all := OverRoutes(world, state, request, routes, last, cache, old(trace));
              if decision.Some? then all.decision == decision && QuotedAfter(old(quoted), all.quoted, quoted)
              else all == OverRoutes(world, state, request, routes[1..], reason, cache, trace) && quoted == old(quoted)
    {
      var closed := RouteClosed(world, state, request, route);
      if closed.Some? {
        Push(StageOf(route), Skipped, closed.value);
        return None, closed.value;
      }
      ghost var pass := OverRoute(world, state, request, route, cache, trace);
      var pricing;
      decision, reason, pricing := EvaluateProviderRoute(state, route, cache);
      if decision.Some? {
        return;
      }
      if route != Local && (reason == PricingUnknown || reason == PricingStale) {
        Push(FinalStage, Denied, reason);
        decision := Some(Draft(Stopped(reason, cache, pricing), trace));
      }
    }

    method EvaluateRoutes(state: State, cache: CacheStatus) returns (decision: Draft)
      modifies this
      ensures var pass := OverRoutes(world, state, request, ROUTES, NoProviderAvailable, cache, old(trace));
              pass.decision == Some(decision) && QuotedAfter(old(quoted), pass.quoted, quoted)
    {
      var last := NoProviderAvailable;
      ghost var all := OverRoutes(world, state, request, ROUTES, NoProviderAvailable, cache, trace);
      for i := 0 to |ROUTES|
        invariant quoted == old(quoted)
        invariant all == OverRoutes(world, state, request, ROUTES[i..], last, cache, trace)
      {
        assert ROUTES[i..][1..] == ROUTES[i + 1..];
        var found;
        found, last := ConsiderRoute(state, ROUTES[i], cache, last, ROUTES[i..]);
        if found.Some? {
          return found.value;
        }
      }
      assert ROUTES[|ROUTES|..] == [];
      Push(FinalStage, Denied, last);
      decision := Draft(Stopped(last, cache), trace);
    }

    /** The decision before it is audited. */
    method EvaluateInternal() returns (decision: Draft)
      requires trace == [] && quoted == []
      modifies this
      ensures (decision, quoted) == Evaluated(world, request)
    {
      if !world.configValid {
        return Refusal(ConfigInvalid);
      }
      if world.state.None? {
        return Refusal(LedgerInvalid);
      }
      if request.dataClass == Secret {
        Push(CacheStage, Denied, SecretDataDenied);
        return Draft(Stopped(SecretDataDenied, NotLooked), trace);
      }
      var found, status := EvaluateCache();
      if found.Some? {
        return found.value;
      }
      if request.deterministic {
        Push(DeterministicStage, Selected, DeterministicCapability);
        return Draft(DeterministicDecision(status), trace);
      }
      Push(DeterministicStage, Continue, DeterministicUnresolved);
      if HasRepeatedFailure(world.state.value, request.hash, request.error, request.diff) {
        Push(FinalStage, Denied, RepeatedRequest);
        return Draft(Stopped(RepeatedRequest, status), trace);
      }
      ghost var start := trace;
      decision := EvaluateRoutes(world.state.value, status);
      NoneQuotedBefore(OverRoutes(world, world.state.value, request, ROUTES, NoProviderAvailable, status,
                                  start).quoted);
    }

    method Evaluate() returns (decision: Draft)
      requires trace == [] && quoted == []
      modifies this
      ensures decision == Decided(world, request) && quoted == Evaluated(world, request).1
    {
      decision := EvaluateInternal();
      if !world.configValid || world.state.None? || world.audited {
        decision := WithFinal(decision);
      } else {
        decision := Unaudited(WithFinal(decision));
      }
    }
  }
}
