/**
 From every reachable state of the job protocol a restart, the passing of time, ticks and polls bring
 every job to an end, whatever the handlers do: `plan` fixes how each database task ends.
 */
module JobLiveness {
  import opened Prelude
  import opened JobStore
  import opened JobProtocol
  import opened JobProcessing
  import opened JobRuns

  type Plan = Task -> Outcome

  /** A requeue tick takes every stale queued job, or as many as it may. */
  ghost predicate FullBatch(cfg: Settings, s: Store, ids: seq<string>) {
    |ids| == REQUEUE_LIMIT || forall id :: IsStaleQueued(s, cfg, id) ==> id in ids
  }

  /** The continuation produces no job and loses no list, and the plan decides how tasks end. */
  ghost predicate Allowed(cfg: Settings, plan: Plan, y: System, step: Step) {
    match step
    case Produce(_, _, _, _) => false
    case LoseRedis => false
    case StartRequeue(_, ids) => FullBatch(cfg, y.store, ids)
    case Go(tid, outcome) => tid in y.tasks ==> outcome == plan(y.tasks[tid])
    case _ => true
  }

  ghost predicate AllAllowed(cfg: Settings, plan: Plan, y: System, steps: seq<Step>) {
    steps == []
    || (AllAllowed(cfg, plan, y, steps[..|steps| - 1])
        && match RunFrom(cfg, y, steps[..|steps| - 1])
           case None => false
           case Some(y') => Allowed(cfg, plan, y', steps[|steps| - 1]))
  }

  /** 1 when the step records a failure of the job. */
  function Records(y: System, step: Step, id: string): nat {
    if step.Go? && step.tid in y.tasks && y.tasks[step.tid].Failing? && y.tasks[step.tid].id == id then 1 else 0
  }

  ghost function Failures(cfg: Settings, y: System, steps: seq<Step>, id: string): nat {
    if steps == [] then 0
    else
      var front := steps[..|steps| - 1];
      Failures(cfg, y, front, id)
      + match RunFrom(cfg, y, front)
        case None => 0
        case Some(y') => Records(y', steps[|steps| - 1], id)
  }

  /** `steps` leads from `a` to `b` as the plan has it, and every failure recorded on the way counts as an attempt. */
  ghost predicate Leads(cfg: Settings, plan: Plan, a: System, steps: seq<Step>, b: System) {
    && RunFrom(cfg, a, steps) == Some(b) && AllAllowed(cfg, plan, a, steps)
    && SameJobs(a.store, b.store)
    && forall id | id in a.store.rows ::
         b.store.rows[id].attempts == a.store.rows[id].attempts + Failures(cfg, a, steps, id)
  }

  lemma {:induction false} Join(cfg: Settings, plan: Plan, a: System, s1: seq<Step>, s2: seq<Step>)
    requires RunFrom(cfg, a, s1).Some? && AllAllowed(cfg, plan, a, s1)
    requires RunFrom(cfg, RunFrom(cfg, a, s1).value, s2).Some?
    requires AllAllowed(cfg, plan, RunFrom(cfg, a, s1).value, s2)
    ensures RunFrom(cfg, a, s1 + s2) == RunFrom(cfg, RunFrom(cfg, a, s1).value, s2)
    ensures AllAllowed(cfg, plan, a, s1 + s2)
    ensures forall id :: Failures(cfg, a, s1 + s2, id)
                         == Failures(cfg, a, s1, id) + Failures(cfg, RunFrom(cfg, a, s1).value, s2, id)
    decreases s2
  {
    if s2 == [] {
      assert s1 + s2 == s1;
    } else {
      var front := s2[..|s2| - 1];
      Join(cfg, plan, a, s1, front);
      assert (s1 + s2)[..|s1 + s2| - 1] == s1 + front;
    }
  }

  lemma Then(cfg: Settings, plan: Plan, a: System, s1: seq<Step>, b: System, s2: seq<Step>, c: System)
    requires Leads(cfg, plan, a, s1, b) && Leads(cfg, plan, b, s2, c)
    ensures Leads(cfg, plan, a, s1 + s2, c)
  {
    Join(cfg, plan, a, s1, s2);
  }

  lemma Single(cfg: Settings, plan: Plan, a: System, step: Step, b: System)
    requires Next(cfg, a, step) == Some(b) && Allowed(cfg, plan, a, step) && SameJobs(a.store, b.store)
    requires forall id | id in a.store.rows ::
               b.store.rows[id].attempts == a.store.rows[id].attempts + Records(a, step, id)
    ensures Leads(cfg, plan, a, [step], b)
  {
    assert [step][..0] == [];
    assert RunFrom(cfg, a, []) == Some(a);
    assert AllAllowed(cfg, plan, a, []);
    forall id
      ensures Failures(cfg, a, [step], id) == Records(a, step, id)
    {
      assert Failures(cfg, a, [], id) == 0;
    }
  }

  lemma Stay(cfg: Settings, plan: Plan, a: System)
    ensures Leads(cfg, plan, a, [], a)
  {
  }

  lemma {:induction false} LeadsKeepsSound(cfg: Settings, a: System, steps: seq<Step>)
    requires Sound(a) && RunFrom(cfg, a, steps).Some?
    ensures Sound(RunFrom(cfg, a, steps).value)
  {
    if steps != [] {
      LeadsKeepsSound(cfg, a, steps[..|steps| - 1]);
      NextKeepsSound(cfg, RunFrom(cfg, a, steps[..|steps| - 1]).value, steps[|steps| - 1]);
    }
  }

  // ---- Lists of ids ----

  lemma {:induction false} Enumeration(selected: set<string>) returns (ids: seq<string>)
    ensures NoRepeats(ids) && |ids| == |selected| && forall id :: id in ids <==> id in selected
  {
    if selected == {} {
      ids := [];
    } else {
      var id :| id in selected;
      ids := Enumeration(selected - {id});
      ids := ids + [id];
    }
  }

  lemma {:induction false} LatestUpdate(s: Store, ids: seq<string>) returns (latest: int)
    requires forall id | id in ids :: id in s.rows
    ensures forall id | id in ids :: s.rows[id].updatedAt <= latest
  {
    if ids == [] {
      latest := 0;
    } else {
      var last := ids[|ids| - 1];
      latest := LatestUpdate(s, ids[..|ids| - 1]);
      latest := if latest < s.rows[last].updatedAt then s.rows[last].updatedAt else latest;
      assert ids == ids[..|ids| - 1] + [last];
    }
  }

  // ---- A restart ----

  /** One job processor is polling, and no row is left in processing. */
  ghost predicate Idle(y: System) {
    Sound(y) && y.tasks == map[0 := Polling] && NoneProcessing(y.store)
  }

  /** The worker processes die. */
  lemma {:induction false} StopAll(cfg: Settings, plan: Plan, a: System, tids: seq<nat>)
    returns (steps: seq<Step>, b: System)
    requires forall tid :: tid in a.tasks <==> tid in tids
    requires forall i, j | 0 <= i < j < |tids| :: tids[i] != tids[j]
    ensures Leads(cfg, plan, a, steps, b) && b == System(a.store, map[])
    decreases tids
  {
    if tids == [] {
      steps, b := [], a;
      assert a.tasks == map[];
    } else {
      var tid := tids[|tids| - 1];
      var next := a.(tasks := Updated(a.tasks, tid, None));
      assert tids == tids[..|tids| - 1] + [tid];
      Single(cfg, plan, a, Die(tid), next);
      steps, b := StopAll(cfg, plan, next, tids[..|tids| - 1]);
      Then(cfg, plan, a, [Die(tid)], next, steps, b);
      steps := [Die(tid)] + steps;
    }
  }

  lemma {:induction false} TaskIds(tids: set<nat>) returns (ids: seq<nat>)
    ensures forall tid :: tid in ids <==> tid in tids
    ensures forall i, j | 0 <= i < j < |ids| :: ids[i] != ids[j]
  {
    if tids == {} {
      ids := [];
    } else {
      var tid :| tid in tids;
      ids := TaskIds(tids - {tid});
      ids := ids + [tid];
    }
  }

  /** Enough time passes for every row to be stale. */
  lemma Wait(cfg: Settings, plan: Plan, a: System) returns (steps: seq<Step>, b: System)
    ensures Leads(cfg, plan, a, steps, b) && b == a.(store := a.store.(clock := b.store.clock))
    ensures forall id | id in b.store.rows :: IsStale(b.store, cfg, id)
  {
    var ids := Enumeration(a.store.rows.Keys);
    var latest := LatestUpdate(a.store, ids);
    var ms := if latest + cfg.staleMs < a.store.clock then 0 else latest + cfg.staleMs + 1 - a.store.clock;
    b := a.(store := a.store.(clock := a.store.clock + ms));
    steps := [Elapse(ms)];
    Single(cfg, plan, a, Elapse(ms), b);
  }

  /** A task that pushes ids runs to its end. */
  lemma {:induction false} PushThrough(cfg: Settings, plan: Plan, a: System, tid: nat, ids: seq<string>)
    returns (steps: seq<Step>, b: System)
    requires tid in a.tasks && a.tasks[tid] == Pushing(ids)
    ensures Leads(cfg, plan, a, steps, b)
    ensures b == System(PushedAll(a.store, ids), Updated(a.tasks, tid, None))
    decreases ids
  {
    var step := Go(tid, plan(Pushing(ids)));
    var next := Next(cfg, a, step).value;
    Single(cfg, plan, a, step, next);
    if ids == [] {
      steps, b := [step], next;
    } else {
      steps, b := PushThrough(cfg, plan, next, tid, ids[1..]);
      assert Updated(next.tasks, tid, None) == Updated(a.tasks, tid, None);
      Then(cfg, plan, a, [step], next, steps, b);
      steps := [step] + steps;
    }
  }

  /** The reconciler, run to its end: the stale jobs are queued and pushed. */
  lemma Recover(cfg: Settings, plan: Plan, a: System) returns (steps: seq<Step>, b: System)
    requires a.tasks == map[] && forall id | id in a.store.rows :: IsStale(a.store, cfg, id)
    ensures Leads(cfg, plan, a, steps, b)
    ensures b.tasks == map[] && NoneProcessing(b.store)
  {
    var s := a.store;
    var ids := Enumeration(set id | id in s.rows && s.rows[id].status == Processing);
    var step, next := StartRecovery(0, ids), System(StaleReset(s, cfg), a.tasks[0 := Pushing(ids)]);
    assert Lists(ids, id => IsStaleProcessing(s, cfg, id));
    assert StaleReset(s, cfg).rows.Keys == s.rows.Keys;
    Single(cfg, plan, a, step, next);
    steps, b := PushThrough(cfg, plan, next, 0, ids);
    PushedAllIs(next.store, ids);
    Then(cfg, plan, a, [step], next, steps, b);
    steps := [step] + steps;
    assert b.tasks == map[];
  }

  /** The restart as a whole. */
  lemma Restart(cfg: Settings, plan: Plan, a: System) returns (steps: seq<Step>, b: System)
    requires Sound(a)
    ensures Leads(cfg, plan, a, steps, b) && Idle(b)
  {
    var tids := TaskIds(a.tasks.Keys);
    var y1, y2, y3, more;
    steps, y1 := StopAll(cfg, plan, a, tids);
    more, y2 := Wait(cfg, plan, y1);
    Then(cfg, plan, a, steps, y1, more, y2);
    steps := steps + more;
    more, y3 := Recover(cfg, plan, y2);
    Then(cfg, plan, a, steps, y2, more, y3);
    steps := steps + more;
    b := y3.(tasks := y3.tasks[0 := Polling]);
    Single(cfg, plan, y3, StartPolling(0), b);
    Then(cfg, plan, a, steps, y3, [StartPolling(0)], b);
    steps := steps + [StartPolling(0)];
    LeadsKeepsSound(cfg, a, steps);
  }

  // ---- The main loop ----

  /** The row has the attempts that were loaded. */
  predicate IsLoaded(s: Store, t: Task) {
    t.Claiming? || t.Handling? || t.Completing? || t.Failing? ==>
      t.id in s.rows ==> t.row.attempts == s.rows[t.id].attempts
  }

  lemma TaskStaysLoaded(cfg: Settings, s: Store, t: Task, outcome: Outcome)
    requires IsLoaded(s, t) && TaskAfter(cfg, s, t, outcome).Some?
    ensures IsLoaded(StoreAfter(cfg, s, t, outcome), TaskAfter(cfg, s, t, outcome).value)
  {
    match t
    case Claiming(id, row) =>
    case Handling(id, row) =>
    case Completing(id, row) =>
    case _ =>
  }

  /** A worker alone with its store; it is between two statements of its main loop. */
  datatype Loop = Loop(store: Store, task: Task)
  {
    ghost predicate Steady() {
      task.IsMain() && IsLoaded(store, task)
    }
  }

  function LoopStep(cfg: Settings, plan: Plan, l: Loop): Loop
    requires l.task.IsMain()
    ensures LoopStep(cfg, plan, l).task.IsMain()
  {
    Loop(StoreAfter(cfg, l.store, l.task, plan(l.task)), TaskAfter(cfg, l.store, l.task, plan(l.task)).value)
  }

  function LoopSteps(cfg: Settings, plan: Plan, l: Loop, n: nat): (l': Loop)
    requires l.task.IsMain()
    ensures l'.task.IsMain()
    decreases n
  {
    if n == 0 then l else LoopSteps(cfg, plan, LoopStep(cfg, plan, l), n - 1)
  }

  lemma {:induction false} LoopStepsJoin(cfg: Settings, plan: Plan, l: Loop, m: nat, n: nat)
    requires l.task.IsMain()
    ensures LoopSteps(cfg, plan, LoopSteps(cfg, plan, l, m), n) == LoopSteps(cfg, plan, l, m + n)
    decreases m
  {
    if m > 0 {
      LoopStepsJoin(cfg, plan, LoopStep(cfg, plan, l), m - 1, n);
    }
  }

  lemma FailingStepCounts(cfg: Settings, s: Store, t: Task, outcome: Outcome)
    requires IsLoaded(s, t) && t.Failing?
    ensures SameJobs(s, StoreAfter(cfg, s, t, outcome))
    ensures forall id | id in s.rows ::
              StoreAfter(cfg, s, t, outcome).rows[id].attempts
              == s.rows[id].attempts + if t.id == id then 1 else 0
  {
  }

  lemma StepCounts(cfg: Settings, s: Store, t: Task, outcome: Outcome)
    requires IsLoaded(s, t)
    ensures SameJobs(s, StoreAfter(cfg, s, t, outcome))
    ensures forall id | id in s.rows ::
              StoreAfter(cfg, s, t, outcome).rows[id].attempts
              == s.rows[id].attempts + if t.Failing? && t.id == id then 1 else 0
  {
    if t.Failing? {
      FailingStepCounts(cfg, s, t, outcome);
    }
  }

  lemma LoopStepLeads(cfg: Settings, plan: Plan, l: Loop)
    requires l.Steady()
    ensures var l' := LoopStep(cfg, plan, l);
            Leads(cfg, plan, System(l.store, map[0 := l.task]), [Go(0, plan(l.task))],
                  System(l'.store, map[0 := l'.task]))
            && l'.Steady()
  {
    var a, l' := System(l.store, map[0 := l.task]), LoopStep(cfg, plan, l);
    TaskStaysLoaded(cfg, l.store, l.task, plan(l.task));
    StepCounts(cfg, l.store, l.task, plan(l.task));
    assert map[0 := l.task][0 := l'.task] == map[0 := l'.task];
    Single(cfg, plan, a, Go(0, plan(l.task)), System(l'.store, map[0 := l'.task]));
  }

  lemma {:induction false} LoopLeads(cfg: Settings, plan: Plan, l: Loop, n: nat) returns (steps: seq<Step>)
    requires l.Steady()
    ensures var l' := LoopSteps(cfg, plan, l, n);
            Leads(cfg, plan, System(l.store, map[0 := l.task]), steps, System(l'.store, map[0 := l'.task]))
    decreases n
  {
    var a := System(l.store, map[0 := l.task]);
    if n == 0 {
      Stay(cfg, plan, a);
      steps := [];
    } else {
      var l1 := LoopStep(cfg, plan, l);
      LoopStepLeads(cfg, plan, l);
      steps := LoopLeads(cfg, plan, l1, n - 1);
      var l' := LoopSteps(cfg, plan, l1, n - 1);
      Then(cfg, plan, a, [Go(0, plan(l.task))], System(l1.store, map[0 := l1.task]), steps,
           System(l'.store, map[0 := l'.task]));
      steps := [Go(0, plan(l.task))] + steps;
    }
  }

  /** How the plan has one run of the job end. */
  function Chosen(plan: Plan, id: string, row: Row): Attempt {
    var completing := plan(Completing(id, row));
    Attempt(plan(Handling(id, row)), completing)
  }

  lemma FailureSteps(cfg: Settings, plan: Plan, s: Store, id: string, row: Row, permanent: bool)
    requires id in s.rows
    ensures LoopSteps(cfg, plan, Loop(s, Failing(id, row, permanent)), 2)
            == Loop(Failed(cfg, s, id, row, permanent), Polling)
  {
    var l := LoopStep(cfg, plan, Loop(s, Failing(id, row, permanent)));
    assert LoopSteps(cfg, plan, l, 1) == LoopStep(cfg, plan, l);
  }

  /** Once claimed, a job runs to the end of its processing. */
  lemma ClaimedSteps(cfg: Settings, plan: Plan, s: Store, id: string) returns (n: nat)
    requires Claimable(s, id)
    ensures LoopSteps(cfg, plan, Loop(ClaimedRow(s, id), Handling(id, s.rows[id])), n)
            == Loop(Processed(cfg, s, id, Chosen(plan, id, s.rows[id])), Polling)
  {
    var row := s.rows[id];
    var l := Loop(ClaimedRow(s, id), Handling(id, row));
    var l1 := LoopStep(cfg, plan, l);
    assert LoopSteps(cfg, plan, l, 1) == l1;
    if l1.task.Failing? {
      n := 3;
      FailureSteps(cfg, plan, l1.store, id, row, l1.task.permanent);
      LoopStepsJoin(cfg, plan, l, 1, 2);
    } else {
      var l2 := LoopStep(cfg, plan, l1);
      assert LoopSteps(cfg, plan, l1, 1) == l2;
      LoopStepsJoin(cfg, plan, l, 1, 1);
      n := 2;
      if l2.task.Failing? {
        n := 4;
        FailureSteps(cfg, plan, l2.store, id, row, false);
        LoopStepsJoin(cfg, plan, l, 2, 2);
      }
    }
  }

  /** One turn of the main loop does what processing the popped job does. */
  lemma PollSteps(cfg: Settings, plan: Plan, s: Store) returns (n: nat)
    requires s.queue != [] && QueueTail(s) in s.rows
    ensures var id := QueueTail(s);
            LoopSteps(cfg, plan, Loop(s, Polling), n)
            == Loop(Processed(cfg, Popped(s), id, Chosen(plan, id, s.rows[id])), Polling)
  {
    var id, popped, l := QueueTail(s), Popped(s), Loop(s, Polling);
    var l1, l2 := Loop(popped, Loading(id)), LoopStep(cfg, plan, Loop(popped, Loading(id)));
    assert LoopStep(cfg, plan, l) == l1;
    assert LoopSteps(cfg, plan, l1, 1) == l2;
    assert LoopSteps(cfg, plan, l, 1) == l1;
    LoopStepsJoin(cfg, plan, l, 1, 1);
    n := 2;
    if !popped.rows[id].IsTerminal() {
      var l3 := LoopStep(cfg, plan, l2);
      assert LoopSteps(cfg, plan, l2, 1) == l3;
      LoopStepsJoin(cfg, plan, l, 2, 1);
      n := 3;
      if Claimable(popped, id) {
        var rest := ClaimedSteps(cfg, plan, popped, id);
        LoopStepsJoin(cfg, plan, l, 3, rest);
        n := 3 + rest;
      }
    }
  }

  // ---- Draining the queue ----

  /** No job gets more runs, and the listed jobs have used one up or have ended. */
  ghost predicate Progress(s: Store, s': Store, ids: seq<string>) {
    SameJobs(s, s') && forall id | id in s.rows :: RanLess(s, s', id, id in ids)
  }

  predicate RanLess(s: Store, s': Store, id: string, listed: bool)
    requires id in s.rows
  {
    id in s'.rows && Left(s'.rows[id]) <= Left(s.rows[id])
    && (listed && Left(s.rows[id]) > 0 ==> Left(s'.rows[id]) < Left(s.rows[id]))
  }

  /** The store of an idle worker. */
  ghost predicate Calm(s: Store) {
    NoneProcessing(s) && (forall id | id in s.rows :: RowSound(s.rows[id])) && forall id | id in s.queue :: id in s.rows
  }

  /** One poll makes progress on the job it takes. */
  lemma PollProgress(cfg: Settings, s: Store, attempt: Attempt)
    requires Calm(s) && s.queue != []
    ensures var s' := Processed(cfg, Popped(s), QueueTail(s), attempt);
            Calm(s') && s'.queue == Popped(s).queue && Progress(s, s', [QueueTail(s)])
  {
    var id, popped := QueueTail(s), Popped(s);
    assert id in s.queue && RowSound(s.rows[id]);
    assert Calm(popped);
    if Claimable(popped, id) {
      ProcessingMakesProgress(cfg, popped, id, attempt);
      var row := ProcessingChangesOneRow(cfg, popped, id, attempt);
      assert RowSound(row);
    }
  }

  lemma ProgressJoins(s: Store, s1: Store, s2: Store, front: seq<string>, id: string)
    requires Progress(s, s1, [id]) && Progress(s1, s2, front)
    ensures Progress(s, s2, front + [id])
  {
    forall job | job in s.rows
      ensures RanLess(s, s2, job, job in front + [id])
    {
      assert RanLess(s, s1, job, job in [id]) && RanLess(s1, s2, job, job in front);
    }
  }

  /** What one turn of the main loop makes of the store. */
  ghost function Polled(cfg: Settings, plan: Plan, s: Store): (s': Store)
    requires Calm(s) && s.queue != []
    ensures Calm(s') && s'.queue == s.queue[..|s.queue| - 1]
  {
    var id := QueueTail(s);
    assert id in s.queue;
    var attempt := Chosen(plan, id, s.rows[id]);
    PollProgress(cfg, s, attempt);
    Processed(cfg, Popped(s), id, attempt)
  }

  ghost function Drained(cfg: Settings, plan: Plan, s: Store): (s': Store)
    requires Calm(s)
    ensures Calm(s')
    decreases |s.queue|
  {
    if s.queue == [] then s else Drained(cfg, plan, Polled(cfg, plan, s))
  }

  /** Every job that was in the queue makes progress while the worker empties it. */
  lemma {:induction false} DrainProgress(cfg: Settings, plan: Plan, s: Store)
    requires Calm(s)
    ensures Progress(s, Drained(cfg, plan, s), s.queue)
    decreases |s.queue|
  {
    if s.queue != [] {
      var id, s1 := QueueTail(s), Polled(cfg, plan, s);
      assert id in s.queue && s.queue == s1.queue + [id];
      PollProgress(cfg, s, Chosen(plan, id, s.rows[id]));
      DrainProgress(cfg, plan, s1);
      ProgressJoins(s, s1, Drained(cfg, plan, s1), s1.queue, id);
    }
  }

  lemma PollReachesPolled(cfg: Settings, plan: Plan, s: Store) returns (n: nat)
    requires Calm(s) && s.queue != []
    ensures LoopSteps(cfg, plan, Loop(s, Polling), n) == Loop(Polled(cfg, plan, s), Polling)
  {
    assert QueueTail(s) in s.queue;
    n := PollSteps(cfg, plan, s);
  }

  lemma {:induction false} DrainSteps(cfg: Settings, plan: Plan, s: Store) returns (n: nat)
    requires Calm(s)
    ensures LoopSteps(cfg, plan, Loop(s, Polling), n) == Loop(Drained(cfg, plan, s), Polling)
    decreases |s.queue|
  {
    n := 0;
    if s.queue != [] {
      n := PollReachesPolled(cfg, plan, s);
      var rest := DrainSteps(cfg, plan, Polled(cfg, plan, s));
      LoopStepsJoin(cfg, plan, Loop(s, Polling), n, rest);
      n := n + rest;
    }
  }

  // ---- Rounds ----

  /** All runs left, over the listed jobs. */
  function TotalLeft(s: Store, ids: seq<string>): nat
    requires forall id | id in ids :: id in s.rows
  {
    if ids == [] then 0
    else
      var last := ids[|ids| - 1];
      assert ids == ids[..|ids| - 1] + [last];
      TotalLeft(s, ids[..|ids| - 1]) + Left(s.rows[last])
  }

  lemma {:induction false} ProgressShrinksTotal(s: Store, s': Store, done: seq<string>, ids: seq<string>)
    requires Progress(s, s', done) && forall id | id in ids :: id in s.rows
    ensures TotalLeft(s', ids) <= TotalLeft(s, ids)
    ensures (exists id | id in ids :: id in done && Left(s.rows[id]) > 0) ==> TotalLeft(s', ids) < TotalLeft(s, ids)
  {
    if ids != [] {
      var last := ids[|ids| - 1];
      assert ids == ids[..|ids| - 1] + [last];
      ProgressShrinksTotal(s, s', done, ids[..|ids| - 1]);
      assert RanLess(s, s', last, last in done);
    }
  }

  ghost predicate RequeueBatch(cfg: Settings, s: Store, ids: seq<string>) {
    && |ids| <= REQUEUE_LIMIT && NoRepeats(ids) && FullBatch(cfg, s, ids)
    && forall id | id in ids :: IsStaleQueued(s, cfg, id)
  }

  lemma BatchExists(cfg: Settings, s: Store) returns (ids: seq<string>)
    ensures RequeueBatch(cfg, s, ids)
  {
    var all := Enumeration(set id | id in s.rows && IsStaleQueued(s, cfg, id));
    ids := if |all| <= REQUEUE_LIMIT then all else all[..REQUEUE_LIMIT];
    assert forall id | id in ids :: id in all;
  }

  lemma TickStarts(cfg: Settings, plan: Plan, a: System, ids: seq<string>)
    requires 1 !in a.tasks && RequeueBatch(cfg, a.store, ids)
    ensures Leads(cfg, plan, a, [StartRequeue(1, ids)], a.(tasks := a.tasks[1 := Pushing(ids)]))
  {
    Single(cfg, plan, a, StartRequeue(1, ids), a.(tasks := a.tasks[1 := Pushing(ids)]));
  }

  /** A requeue tick beside the idle worker pushes a full batch of the stale queued jobs. */
  lemma Requeue(cfg: Settings, plan: Plan, a: System, ids: seq<string>) returns (steps: seq<Step>, b: System)
    requires a.tasks == map[0 := Polling] && RequeueBatch(cfg, a.store, ids)
    ensures Leads(cfg, plan, a, steps, b) && b == System(PushedAll(a.store, ids), map[0 := Polling])
  {
    var started := a.(tasks := a.tasks[1 := Pushing(ids)]);
    TickStarts(cfg, plan, a, ids);
    steps, b := PushThrough(cfg, plan, started, 1, ids);
    Then(cfg, plan, a, [StartRequeue(1, ids)], started, steps, b);
    steps := [StartRequeue(1, ids)] + steps;
    assert Updated(started.tasks, 1, None) == map[0 := Polling];
  }

  /** Draining after a requeue runs at least one of the jobs that have not ended. */
  lemma RequeueShrinksTotal(cfg: Settings, s: Store, ids: seq<string>, drained: Store, jobs: seq<string>)
    requires Calm(s) && RequeueBatch(cfg, s, ids) && (forall id :: id in jobs <==> id in s.rows)
    requires forall id | id in s.rows :: IsStale(s, cfg, id)
    requires exists id | id in s.rows :: !s.rows[id].IsTerminal()
    requires Progress(s, drained, Reversed(ids) + s.queue)
    ensures TotalLeft(drained, jobs) < TotalLeft(s, jobs)
  {
    var open :| open in s.rows && !s.rows[open].IsTerminal();
    assert IsStaleQueued(s, cfg, open);
    var picked := if open in ids then open else ids[0];
    assert picked in ids && IsStaleQueued(s, cfg, picked) && RowSound(s.rows[picked]);
    ReversedHolds(ids, picked);
    ProgressShrinksTotal(s, drained, Reversed(ids) + s.queue, jobs);
  }

  /** The requeue and the draining, seen from the store. */
  lemma RequeueAndDrain(cfg: Settings, plan: Plan, s: Store, ids: seq<string>, jobs: seq<string>)
    returns (n: nat, drained: Store)
    requires Calm(s) && RequeueBatch(cfg, s, ids) && (forall id :: id in jobs <==> id in s.rows)
    requires forall id | id in s.rows :: IsStale(s, cfg, id)
    requires exists id | id in s.rows :: !s.rows[id].IsTerminal()
    ensures LoopSteps(cfg, plan, Loop(PushedAll(s, ids), Polling), n) == Loop(drained, Polling)
    ensures Calm(drained) && drained.rows.Keys == s.rows.Keys && TotalLeft(drained, jobs) < TotalLeft(s, jobs)
  {
    var pushed := PushedAll(s, ids);
    PushedAllIs(s, ids);
    forall id | id in pushed.queue
      ensures id in pushed.rows
    {
      ReversedHolds(ids, id);
    }
    n := DrainSteps(cfg, plan, pushed);
    DrainProgress(cfg, plan, pushed);
    drained := Drained(cfg, plan, pushed);
    assert forall id | id in s.rows :: RanLess(pushed, drained, id, id in pushed.queue);
    assert Progress(s, drained, Reversed(ids) + s.queue);
    RequeueShrinksTotal(cfg, s, ids, drained, jobs);
  }

  /** Time passes, the tick requeues, the worker drains the queue: fewer runs are left than before. */
  lemma Round(cfg: Settings, plan: Plan, a: System, jobs: seq<string>) returns (steps: seq<Step>, b: System)
    requires a.tasks == map[0 := Polling] && Calm(a.store) && (forall id :: id in jobs <==> id in a.store.rows)
    requires exists id | id in a.store.rows :: !a.store.rows[id].IsTerminal()
    ensures Leads(cfg, plan, a, steps, b)
    ensures b.tasks == map[0 := Polling] && Calm(b.store) && b.store.rows.Keys == a.store.rows.Keys
    ensures TotalLeft(b.store, jobs) < TotalLeft(a.store, jobs)
  {
    var more, y1, y2;
    steps, y1 := Wait(cfg, plan, a);
    var ids := BatchExists(cfg, y1.store);
    more, y2 := Requeue(cfg, plan, y1, ids);
    Then(cfg, plan, a, steps, y1, more, y2);
    steps := steps + more;
    var n, drained := RequeueAndDrain(cfg, plan, y1.store, ids, jobs);
    SameTotal(a.store, y1.store, jobs);
    b := System(drained, map[0 := Polling]);
    more := LoopLeads(cfg, plan, Loop(y2.store, Polling), n);
    Then(cfg, plan, a, steps, y2, more, b);
    steps := steps + more;
  }

  lemma {:induction false} SameTotal(s: Store, s': Store, ids: seq<string>)
    requires s.rows == s'.rows && forall id | id in ids :: id in s.rows
    ensures TotalLeft(s, ids) == TotalLeft(s', ids)
  {
    if ids != [] {
      SameTotal(s, s', ids[..|ids| - 1]);
    }
  }

  lemma {:induction false} Rounds(cfg: Settings, plan: Plan, a: System, jobs: seq<string>)
    returns (steps: seq<Step>, b: System)
    requires a.tasks == map[0 := Polling] && Calm(a.store) && (forall id :: id in jobs <==> id in a.store.rows)
    ensures Leads(cfg, plan, a, steps, b) && forall id | id in b.store.rows :: b.store.rows[id].IsTerminal()
    decreases TotalLeft(a.store, jobs)
  {
    if exists id | id in a.store.rows :: !a.store.rows[id].IsTerminal() {
      var more, y1;
      steps, y1 := Round(cfg, plan, a, jobs);
      more, b := Rounds(cfg, plan, y1, jobs);
      Then(cfg, plan, a, steps, y1, more, b);
      steps := steps + more;
    } else {
      steps, b := [], a;
      Stay(cfg, plan, a);
    }
  }

  /**
   From the state any run has reached, whatever crashed and however the handlers will end, a restart, ticks
   and polls bring every job to 'completed' or 'dead'; a job that had not ended records at most as many
   further failures as it had attempts left.
   */
  lemma EveryJobCanEnd(cfg: Settings, plan: Plan, run: seq<Step>) returns (steps: seq<Step>, b: System)
    requires RunFrom(cfg, EMPTY, run).Some?
    ensures RunFrom(cfg, RunFrom(cfg, EMPTY, run).value, steps) == Some(b)
    ensures AllAllowed(cfg, plan, RunFrom(cfg, EMPTY, run).value, steps)
    ensures b.store.rows.Keys == RunFrom(cfg, EMPTY, run).value.store.rows.Keys
    ensures forall id | id in b.store.rows :: b.store.rows[id].IsTerminal()
    ensures forall id | id in b.store.rows ::
              var a := RunFrom(cfg, EMPTY, run).value;
              Failures(cfg, a, steps, id) <= a.store.rows[id].maxAttempts - a.store.rows[id].attempts
  {
    EveryRunIsSound(cfg, run);
    var a := RunFrom(cfg, EMPTY, run).value;
    var y, more;
    steps, y := Restart(cfg, plan, a);
    var jobs := Enumeration(y.store.rows.Keys);
    more, b := Rounds(cfg, plan, y, jobs);
    Then(cfg, plan, a, steps, y, more, b);
    steps := steps + more;
    LeadsKeepsSound(cfg, a, steps);
    forall id | id in b.store.rows
      ensures Failures(cfg, a, steps, id) <= a.store.rows[id].maxAttempts - a.store.rows[id].attempts
    {
      assert RowSound(b.store.rows[id]);
    }
  }
}
