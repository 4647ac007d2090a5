/**
 What routing reads from the ledger: the latest health of each model, the latest approvals of one task,
 and that task's attempts with the evidence gathered for them.
 */
module RoutingState {
  import opened Prelude
  import opened RoutingContracts

  datatype Health = Healthy | Degraded | Unavailable | UnknownHealth
  datatype Grant = Granted | DeniedGrant | Revoked | Missing
  datatype AttemptStatus = Completed | Failed | Blocked | Cancelled

  datatype Event =
    | HealthReported(provider: Provider, model: string, health: Health)
    | ApprovalGiven(task: string, scope: Scope, grant: Grant)
    | AttemptStarted(task: string, attempt: string, route: Route, request: string)
    | AttemptCompleted(
        task: string, attempt: string, status: AttemptStatus, patch: Option<string>, error: Option<string>,
        escalation: Option<string>)
    | Verified(attempt: string, evidence: string)
    | Unrelated

  datatype Attempt = Attempt(
    id: string, route: Route, request: string, status: AttemptStatus, patch: Option<string>, error: Option<string>,
    escalation: Option<string>, evidence: seq<string>)

  datatype State = State(health: map<(Provider, string), Health>, approvals: map<Scope, Grant>, attempts: seq<Attempt>)
  {
    function HealthOf(provider: Provider, model: string): Health {
      if (provider, model) in health then health[(provider, model)] else UnknownHealth
    }

    function GrantOf(scope: Scope): Grant {
      if scope in approvals then approvals[scope] else Missing
    }
  }

  // ---- What the state says ----

  /** The last report on a model, if there is one. */
  function LastHealth(events: seq<Event>, provider: Provider, model: string): Option<Health> {
    if events == [] then None
    else
      var last := events[|events| - 1];
      if last.HealthReported? && last.provider == provider && last.model == model then Some(last.health)
      else LastHealth(events[..|events| - 1], provider, model)
  }

  function LastGrant(events: seq<Event>, task: string, scope: Scope): Option<Grant> {
    if events == [] then None
    else
      var last := events[|events| - 1];
      if last.ApprovalGiven? && last.task == task && last.scope == scope then Some(last.grant)
      else LastGrant(events[..|events| - 1], task, scope)
  }

  function LastStart(events: seq<Event>, task: string, attempt: string): Option<Event> {
    if events == [] then None
    else
      var last := events[|events| - 1];
      if last.AttemptStarted? && last.task == task && last.attempt == attempt then Some(last)
      else LastStart(events[..|events| - 1], task, attempt)
  }

  function EvidenceFor(events: seq<Event>, attempt: string): seq<string> {
    if events == [] then []
    else
      var last := events[|events| - 1];
      var before := EvidenceFor(events[..|events| - 1], attempt);
      if last.Verified? && last.attempt == attempt then before + [last.evidence] else before
  }

  /** The attempt a completion stands for; a completion without a start stands for none. */
  function AttemptFrom(all: seq<Event>, task: string, sort: seq<string> -> seq<string>, event: Event): Option<Attempt> {
    if event.AttemptCompleted? && event.task == task && LastStart(all, task, event.attempt).Some? then
      var start := LastStart(all, task, event.attempt).value;
      if start.AttemptStarted? then
        Some(Attempt(event.attempt, start.route, start.request, event.status, event.patch, event.error,
                     event.escalation, sort(EvidenceFor(all, event.attempt))))
      else None
    else None
  }

  function AttemptsIn(
      events: seq<Event>, all: seq<Event>, task: string, sort: seq<string> -> seq<string>): seq<Attempt>
  {
    if events == [] then []
    else
      var before := AttemptsIn(events[..|events| - 1], all, task, sort);
      match AttemptFrom(all, task, sort, events[|events| - 1])
      case None => before
      case Some(attempt) => before + [attempt]
  }

  /** The state describes the events: latest health and approvals, attempts in the order of completion. */
  ghost predicate Describes(state: State, events: seq<Event>, task: string, sort: seq<string> -> seq<string>) {
    && (forall p, m :: LastHealth(events, p, m)
                       == if (p, m) in state.health then Some(state.health[(p, m)]) else None)
    && (forall s :: LastGrant(events, task, s) == if s in state.approvals then Some(state.approvals[s]) else None)
    && state.attempts == AttemptsIn(events, events, task, sort)
  }

  ghost predicate Collected(
      events: seq<Event>, task: string, health: map<(Provider, string), Health>, approvals: map<Scope, Grant>,
      starts: map<string, Event>, evidence: map<string, seq<string>>)
  {
    && (forall p, m :: LastHealth(events, p, m) == if (p, m) in health then Some(health[(p, m)]) else None)
    && (forall s :: LastGrant(events, task, s) == if s in approvals then Some(approvals[s]) else None)
    && (forall a :: LastStart(events, task, a) == if a in starts then Some(starts[a]) else None)
    && (forall a :: EvidenceFor(events, a) == if a in evidence then evidence[a] else [])
  }

  method CollectEvents(events: seq<Event>, task: string)
    returns (health: map<(Provider, string), Health>, approvals: map<Scope, Grant>, starts: map<string, Event>,
             evidence: map<string, seq<string>>)
    ensures Collected(events, task, health, approvals, starts, evidence)
    ensures forall a | a in starts :: starts[a].AttemptStarted?
  {
    health, approvals, starts, evidence := map[], map[], map[], map[];
    for i := 0 to |events|
      invariant Collected(events[..i], task, health, approvals, starts, evidence)
      invariant forall a | a in starts :: starts[a].AttemptStarted?
    {
      assert events[..i + 1][..i] == events[..i] && events[..i + 1][i] == events[i];
      match events[i] {
        case HealthReported(p, m, h) => health := health[(p, m) := h];
        case ApprovalGiven(t, s, g) =>
          if t == task {
            approvals := approvals[s := g];
          }
        case AttemptStarted(t, a, _, _) =>
          if t == task {
            starts := starts[a := events[i]];
          }
        case Verified(a, h) => evidence := evidence[a := (if a in evidence then evidence[a] else []) + [h]];
        case _ =>
      }
    }
    assert events[..|events|] == events;
  }

  /** `sort` is the platform's sort of strings. */
  method DeriveRoutingState(events: seq<Event>, task: string, sort: seq<string> -> seq<string>) returns (state: State)
    ensures Describes(state, events, task, sort)
  {
    var health, approvals, starts, evidence := CollectEvents(events, task);
    var attempts := [];
    for i := 0 to |events|
      invariant attempts == AttemptsIn(events[..i], events, task, sort)
    {
      var event := events[i];
      assert events[..i + 1][..i] == events[..i] && events[..i + 1][i] == event;
      if event.AttemptCompleted? && event.task == task && event.attempt in starts {
        var start := starts[event.attempt];
        var proof := if event.attempt in evidence then evidence[event.attempt] else [];
        assert LastStart(events, task, event.attempt) == Some(start);
        var attempt := Attempt(event.attempt, start.route, start.request, event.status, event.patch, event.error,
                               event.escalation, sort(proof));
        attempts := attempts + [attempt];
      } else {
        assert event.AttemptCompleted? && event.task == task ==> LastStart(events, task, event.attempt) == None;
      }
    }
    assert events[..|events|] == events;
    state := State(health, approvals, attempts);
  }

  // ---- Questions to the state ----

  predicate HasRouteInsufficiency(state: State, route: Route, request: string)
    requires route == Local || route == CheapCloud
  {
    exists i | 0 <= i < |state.attempts| ::
      var a := state.attempts[i];
      a.route == route && a.request == request && (a.status == Failed || a.status == Blocked)
      && a.escalation == Some(if route == Local then "local-insufficient" else "cheap-insufficient")
  }

  predicate SameFailure(a: Attempt, request: string, error: string, diff: string) {
    (a.status == Failed || a.status == Blocked) && a.error == Some(error) && a.patch == Some(diff)
      && a.request == request
  }

  function MatchingFailures(attempts: seq<Attempt>, request: string, error: string, diff: string): (r: seq<Attempt>)
    ensures forall a | a in r :: a in attempts && SameFailure(a, request, error, diff)
  {
    if attempts == [] then []
    else
      var last := attempts[|attempts| - 1];
      MatchingFailures(attempts[..|attempts| - 1], request, error, diff)
      + if SameFailure(last, request, error, diff) then [last] else []
  }

  /** The last two failures of this request, error and diff took the same route and left the same evidence. */
  predicate HasRepeatedFailure(state: State, request: string, error: Option<string>, diff: Option<string>) {
    if error.None? || diff.None? then false
    else
      var matching := MatchingFailures(state.attempts, request, error.value, diff.value);
      |matching| >= 2 && var previous, latest := matching[|matching| - 2], matching[|matching| - 1];
                         previous.route == latest.route && previous.evidence == latest.evidence
  }

  predicate NoneFrom(attempts: seq<Attempt>, n: nat, request: string, error: string, diff: string) {
    forall k | n <= k < |attempts| :: !SameFailure(attempts[k], request, error, diff)
  }

  lemma {:induction false} NothingMatchesFrom(
      attempts: seq<Attempt>, n: nat, request: string, error: string, diff: string)
    requires n <= |attempts| && NoneFrom(attempts, n, request, error, diff)
    ensures MatchingFailures(attempts, request, error, diff) == MatchingFailures(attempts[..n], request, error, diff)
  {
    if n == |attempts| {
      assert attempts[..n] == attempts;
    } else {
      var front := attempts[..|attempts| - 1];
      NothingMatchesFrom(front, n, request, error, diff);
      assert front[..n] == attempts[..n];
    }
  }

  /** The last matching attempt, and the matching ones before it. */
  lemma LastMatch(attempts: seq<Attempt>, j: nat, request: string, error: string, diff: string)
    requires j < |attempts| && SameFailure(attempts[j], request, error, diff)
             && NoneFrom(attempts, j + 1, request, error, diff)
    ensures MatchingFailures(attempts, request, error, diff)
            == MatchingFailures(attempts[..j], request, error, diff) + [attempts[j]]
  {
    NothingMatchesFrom(attempts, j + 1, request, error, diff);
    assert attempts[..j + 1][..j] == attempts[..j];
  }

  lemma {:induction false} FindLastMatch(attempts: seq<Attempt>, request: string, error: string, diff: string)
    returns (j: nat)
    requires MatchingFailures(attempts, request, error, diff) != []
    ensures j < |attempts| && SameFailure(attempts[j], request, error, diff)
            && NoneFrom(attempts, j + 1, request, error, diff)
  {
    j := |attempts| - 1;
    if !SameFailure(attempts[j], request, error, diff) {
      var front := attempts[..j];
      j := FindLastMatch(front, request, error, diff);
      assert forall k | j < k < |front| :: attempts[k] == front[k];
    }
  }

  /** The attempts at `i` and `j` are the last two failures of the request. */
  predicate LastTwo(attempts: seq<Attempt>, i: nat, j: nat, request: string, error: string, diff: string) {
    && i < j < |attempts|
    && SameFailure(attempts[i], request, error, diff) && SameFailure(attempts[j], request, error, diff)
    && forall k | i < k < |attempts| && k != j :: !SameFailure(attempts[k], request, error, diff)
  }

  lemma LastTwoMatch(attempts: seq<Attempt>, i: nat, j: nat, request: string, error: string, diff: string)
    requires LastTwo(attempts, i, j, request, error, diff)
    ensures var m := MatchingFailures(attempts, request, error, diff);
            |m| >= 2 && m[|m| - 2] == attempts[i] && m[|m| - 1] == attempts[j]
  {
    LastMatch(attempts, j, request, error, diff);
    LastMatch(attempts[..j], i, request, error, diff);
  }

  lemma FindLastTwo(attempts: seq<Attempt>, request: string, error: string, diff: string) returns (i: nat, j: nat)
    requires |MatchingFailures(attempts, request, error, diff)| >= 2
    ensures LastTwo(attempts, i, j, request, error, diff)
  {
    j := FindLastMatch(attempts, request, error, diff);
    LastMatch(attempts, j, request, error, diff);
    i := FindLastMatch(attempts[..j], request, error, diff);
    assert forall k | i < k < j :: attempts[..j][k] == attempts[k];
  }

  /** They took the same route and left the same evidence. */
  predicate RepeatedAt(attempts: seq<Attempt>, i: nat, j: nat, request: string, error: string, diff: string) {
    LastTwo(attempts, i, j, request, error, diff)
    && attempts[i].route == attempts[j].route && attempts[i].evidence == attempts[j].evidence
  }

  lemma RepeatedIsFound(state: State, request: string, error: string, diff: string) returns (i: nat, j: nat)
    requires HasRepeatedFailure(state, request, Some(error), Some(diff))
    ensures RepeatedAt(state.attempts, i, j, request, error, diff)
  {
    i, j := FindLastTwo(state.attempts, request, error, diff);
    LastTwoMatch(state.attempts, i, j, request, error, diff);
  }

  /** A request is refused as repeated exactly when its last two failures took one route and left the same evidence. */
  lemma RepeatedFailureIs(state: State, request: string, error: string, diff: string)
    ensures HasRepeatedFailure(state, request, Some(error), Some(diff))
            <==> exists i: nat, j: nat :: RepeatedAt(state.attempts, i, j, request, error, diff)
  {
    if HasRepeatedFailure(state, request, Some(error), Some(diff)) {
      var i, j := RepeatedIsFound(state, request, error, diff);
    }
    forall i: nat, j: nat | RepeatedAt(state.attempts, i, j, request, error, diff)
      ensures HasRepeatedFailure(state, request, Some(error), Some(diff))
    {
      LastTwoMatch(state.attempts, i, j, request, error, diff);
    }
  }
}
