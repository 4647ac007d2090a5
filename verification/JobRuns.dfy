/**
 With one worker, terminal jobs stay as they are; with two they need not. And from every state some
 continuation brings every job to an end, whatever the handlers do.
 */
module JobRuns {
  import opened Prelude
  import opened JobStore
  import opened JobProtocol

  // ---- One worker ----

  /** At most one main loop: at most one worker process is alive. */
  predicate OneMain(y: System) {
    forall a, b | a in y.tasks && b in y.tasks && y.tasks[a].IsMain() && y.tasks[b].IsMain() :: a == b
  }

  /**
   What a main loop holds is current: a job between its claim and its final update is not terminal, and
   its attempts are as loaded.
   */
  predicate IsCurrent(s: Store, t: Task) {
    match t
    case Claiming(id, row) => id in s.rows ==> row.attempts == s.rows[id].attempts
    case Handling(id, row) => HoldsOpen(s, id, row)
    case Completing(id, row) => HoldsOpen(s, id, row)
    case Failing(id, row, _) => HoldsOpen(s, id, row)
    case _ => true
  }

  predicate HoldsOpen(s: Store, id: string, row: Row) {
    id in s.rows ==> !s.rows[id].IsTerminal() && row.attempts == s.rows[id].attempts
  }

  predicate AllCurrent(y: System) {
    forall tid | tid in y.tasks :: IsCurrent(y.store, y.tasks[tid])
  }

  predicate TerminalKept(s: Store, s': Store) {
    forall id | id in s.rows && s.rows[id].IsTerminal() :: id in s'.rows && s'.rows[id] == s.rows[id]
  }

  /** No attempt is counted and no job ends: what every task beside the main loops respects. */
  predicate OnlyReopens(s: Store, s': Store) {
    s'.rows.Keys == s.rows.Keys
    && forall id | id in s.rows :: s'.rows[id].attempts == s.rows[id].attempts
                                   && (s'.rows[id].IsTerminal() <==> s.rows[id].IsTerminal())
  }

  lemma CurrentTaskKeepsTerminal(cfg: Settings, s: Store, t: Task, outcome: Outcome)
    requires IsCurrent(s, t)
    ensures TerminalKept(s, StoreAfter(cfg, s, t, outcome))
  {
    match t
    case Failing(id, row, permanent) =>
      if id in s.rows {
        assert !s.rows[id].IsTerminal();
      }
    case _ =>
  }

  /** When the update to 'completed' goes through, the worker is told. */
  predicate CompletionHeard(t: Task, outcome: Outcome) {
    t.Completing? ==> !outcome.LosesReply?
  }

  lemma CurrentTaskStaysCurrent(cfg: Settings, s: Store, t: Task, outcome: Outcome)
    requires IsCurrent(s, t) && TaskAfter(cfg, s, t, outcome).Some? && CompletionHeard(t, outcome)
    ensures IsCurrent(StoreAfter(cfg, s, t, outcome), TaskAfter(cfg, s, t, outcome).value)
  {
    match t
    case Claiming(id, row) =>
    case Handling(id, row) =>
    case Completing(id, row) =>
    case _ =>
  }

  lemma SideTaskOnlyReopens(cfg: Settings, s: Store, t: Task, outcome: Outcome)
    requires !t.IsMain()
    ensures OnlyReopens(s, StoreAfter(cfg, s, t, outcome))
  {
    match t
    case Resetting(ids) =>
      if ids != [] && Resettable(s, ids[0]) {
        assert StoreAfter(cfg, s, t, outcome).rows.Keys == s.rows.Keys;
      }
    case _ =>
  }

  lemma ReopeningKeepsCurrent(s: Store, s': Store, t: Task)
    requires IsCurrent(s, t) && OnlyReopens(s, s')
    ensures IsCurrent(s', t)
  {
  }

  lemma GoKeepsCurrent(cfg: Settings, y: System, tid: nat, outcome: Outcome)
    requires OneMain(y) && AllCurrent(y) && tid in y.tasks && CompletionHeard(y.tasks[tid], outcome)
    ensures AllCurrent(Next(cfg, y, Go(tid, outcome)).value)
  {
    var s, t := y.store, y.tasks[tid];
    var s', next := StoreAfter(cfg, s, t, outcome), TaskAfter(cfg, s, t, outcome);
    if next.Some? {
      CurrentTaskStaysCurrent(cfg, s, t, outcome);
    }
    forall other | other in y.tasks && other != tid
      ensures IsCurrent(s', y.tasks[other])
    {
      if !t.IsMain() {
        SideTaskOnlyReopens(cfg, s, t, outcome);
        ReopeningKeepsCurrent(s, s', y.tasks[other]);
      } else {
        assert !y.tasks[other].IsMain();
      }
    }
    forall other | other in Updated(y.tasks, tid, next)
      ensures IsCurrent(s', Updated(y.tasks, tid, next)[other])
    {
    }
  }

  lemma GoKeepsTerminal(cfg: Settings, y: System, tid: nat, outcome: Outcome)
    requires AllCurrent(y) && tid in y.tasks
    ensures TerminalKept(y.store, Next(cfg, y, Go(tid, outcome)).value.store)
  {
    CurrentTaskKeepsTerminal(cfg, y.store, y.tasks[tid], outcome);
  }

  lemma OneWorkerStep(cfg: Settings, y: System, step: Step)
    requires Sound(y) && OneMain(y) && AllCurrent(y) && Next(cfg, y, step).Some? && StepHeard(y, step)
    ensures TerminalKept(y.store, Next(cfg, y, step).value.store)
    ensures AllCurrent(Next(cfg, y, step).value)
  {
    match step
    case Go(tid, outcome) =>
      GoKeepsTerminal(cfg, y, tid, outcome);
      GoKeepsCurrent(cfg, y, tid, outcome);
    case Produce(tid, id, jobType, key) => ProduceKeepsCurrent(cfg, y, tid, id, jobType, key);
    case StartRecovery(tid, ids) => RecoveryKeepsCurrent(cfg, y);
    case _ =>
  }

  lemma RecoveryKeepsCurrent(cfg: Settings, y: System)
    requires AllCurrent(y)
    ensures AllCurrent(y.(store := StaleReset(y.store, cfg)))
  {
    assert StaleReset(y.store, cfg).rows.Keys == y.store.rows.Keys;
    forall other | other in y.tasks {
      ReopeningKeepsCurrent(y.store, StaleReset(y.store, cfg), y.tasks[other]);
    }
  }

  lemma ProduceKeepsCurrent(cfg: Settings, y: System, tid: nat, id: string, jobType: string, key: string)
    requires Sound(y) && AllCurrent(y) && Next(cfg, y, Produce(tid, id, jobType, key)).Some?
    ensures AllCurrent(Next(cfg, y, Produce(tid, id, jobType, key)).value)
  {
    forall other | other in y.tasks
      ensures IsCurrent(Inserted(y.store, id, jobType, key), y.tasks[other])
    {
      assert TaskSound(y.store, y.tasks[other]);
    }
  }

  /** A run in which no two main loops are ever alive together. */
  ghost predicate OneWorkerRun(cfg: Settings, steps: seq<Step>) {
    && RunFrom(cfg, EMPTY, steps).Some?
    && (steps == [] || OneWorkerRun(cfg, steps[..|steps| - 1]))
    && OneMain(RunFrom(cfg, EMPTY, steps).value)
  }

  predicate StepHeard(y: System, step: Step) {
    step.Go? && step.tid in y.tasks ==> CompletionHeard(y.tasks[step.tid], step.outcome)
  }

  /** No reply to an update to 'completed' is lost. */
  ghost predicate CompletionsHeard(cfg: Settings, steps: seq<Step>) {
    RunFrom(cfg, EMPTY, steps).Some?
    && (steps == []
        || (var front := steps[..|steps| - 1];
            CompletionsHeard(cfg, front) && StepHeard(RunFrom(cfg, EMPTY, front).value, steps[|steps| - 1])))
  }

  lemma {:induction false} OneWorkerInvariant(cfg: Settings, steps: seq<Step>)
    requires OneWorkerRun(cfg, steps) && CompletionsHeard(cfg, steps)
    ensures AllCurrent(RunFrom(cfg, EMPTY, steps).value)
  {
    if steps != [] {
      var front := steps[..|steps| - 1];
      OneWorkerInvariant(cfg, front);
      EveryRunIsSound(cfg, front);
      OneWorkerStep(cfg, RunFrom(cfg, EMPTY, front).value, steps[|steps| - 1]);
    }
  }

  /** With one worker at a time that hears of its completions, a completed or dead row never changes again. */
  lemma {:induction false} TerminalIsFinal(cfg: Settings, steps: seq<Step>, n: nat)
    requires OneWorkerRun(cfg, steps) && CompletionsHeard(cfg, steps) && n <= |steps|
    ensures RunFrom(cfg, EMPTY, steps[..n]).Some?
    ensures TerminalKept(RunFrom(cfg, EMPTY, steps[..n]).value.store, RunFrom(cfg, EMPTY, steps).value.store)
  {
    if n == |steps| {
      assert steps[..n] == steps;
    } else {
      var front := steps[..|steps| - 1];
      assert front[..n] == steps[..n];
      TerminalIsFinal(cfg, front, n);
      OneWorkerInvariant(cfg, front);
      EveryRunIsSound(cfg, front);
      OneWorkerStep(cfg, RunFrom(cfg, EMPTY, front).value, steps[|steps| - 1]);
    }
  }

  // ---- Several workers ----

  /** The two unconditional updates, issued for a job that meanwhile has ended. */
  predicate LeavesTerminal(s: Store, t: Task, outcome: Outcome, id: string)
    requires id in s.rows
  {
    match t
    case Completing(job, _) => job == id && s.rows[id].status == Dead && outcome.Commits()
    case Failing(job, row, permanent) =>
      job == id && (s.rows[id].status == Completed || !(permanent || row.attempts + 1 >= row.maxAttempts))
    case _ => false
  }

  /** Whatever the number of workers, these updates and nothing else take a job out of its terminal status. */
  lemma TerminalLeftExactly(cfg: Settings, y: System, step: Step, id: string)
    requires Next(cfg, y, step).Some? && id in y.store.rows && y.store.rows[id].IsTerminal()
    ensures id in Next(cfg, y, step).value.store.rows
    ensures Next(cfg, y, step).value.store.rows[id].status != y.store.rows[id].status
            <==> (step.Go? && LeavesTerminal(y.store, y.tasks[step.tid], step.outcome, id))
  {
    match step
    case Go(tid, outcome) =>
      if !y.tasks[tid].IsMain() {
        var s, s' := y.store, StoreAfter(cfg, y.store, y.tasks[tid], outcome);
        SideTaskOnlyReopens(cfg, s, y.tasks[tid], outcome);
        SideTaskKeepsTerminal(cfg, s, y.tasks[tid], outcome);
      }
    case _ =>
  }

  /** A task writes this job's row whatever its status. */
  predicate Overwrites(t: Task, outcome: Outcome, id: string) {
    match t
    case Completing(job, _) => job == id && outcome.Commits()
    case Failing(job, _, _) => job == id
    case _ => false
  }

  /** What it writes. */
  function Overwritten(s: Store, t: Task, id: string): Row
    requires id in s.rows && (t.Completing? || t.Failing?) && t.id == id
  {
    if t.Completing? then CompletedRow(s, id).rows[id]
    else if t.permanent || t.row.attempts + 1 >= t.row.maxAttempts then DeadRow(s, id, t.row.attempts + 1).rows[id]
    else RetriedRow(s, id, t.row.attempts + 1).rows[id]
  }

  /** Whatever the number of workers, a terminal row stays as it is unless one of these updates writes it. */
  lemma TerminalRowIs(cfg: Settings, y: System, step: Step, id: string)
    requires Next(cfg, y, step).Some? && id in y.store.rows && y.store.rows[id].IsTerminal()
    ensures id in Next(cfg, y, step).value.store.rows
    ensures Next(cfg, y, step).value.store.rows[id]
            == if step.Go? && Overwrites(y.tasks[step.tid], step.outcome, id)
               then Overwritten(y.store, y.tasks[step.tid], id) else y.store.rows[id]
  {
    match step
    case Go(tid, outcome) =>
      if !y.tasks[tid].IsMain() {
        SideTaskKeepsTerminal(cfg, y.store, y.tasks[tid], outcome);
      }
    case _ =>
  }

  // ---- Runs of several workers ----

  lemma {:induction false} PartsRun(cfg: Settings, steps: seq<Step>, n: nat)
    requires RunFrom(cfg, EMPTY, steps).Some? && n <= |steps|
    ensures RunFrom(cfg, EMPTY, steps[..n]).Some?
    decreases |steps|
  {
    if n == |steps| {
      assert steps[..n] == steps;
    } else {
      assert steps[..|steps| - 1][..n] == steps[..n];
      PartsRun(cfg, steps[..|steps| - 1], n);
    }
  }

  /** The rows after so many steps of a run. */
  ghost function RowsAt(cfg: Settings, steps: seq<Step>, n: nat): map<string, Row>
    requires RunFrom(cfg, EMPTY, steps).Some? && n <= |steps|
  {
    PartsRun(cfg, steps, n);
    RunFrom(cfg, EMPTY, steps[..n]).value.store.rows
  }

  /** What has ended once keeps its status to the end of the run. */
  ghost predicate EndsForGood(cfg: Settings, steps: seq<Step>)
    requires RunFrom(cfg, EMPTY, steps).Some?
  {
    forall n, m, id | 0 <= n <= m <= |steps| && id in RowsAt(cfg, steps, n) && RowsAt(cfg, steps, n)[id].IsTerminal() ::
      id in RowsAt(cfg, steps, m) && RowsAt(cfg, steps, m)[id].status == RowsAt(cfg, steps, n)[id].status
  }

  /** The step, in its place in the run, is such an update for a job that has ended. */
  ghost predicate ReopensAt(cfg: Settings, steps: seq<Step>, n: nat, id: string)
    requires RunFrom(cfg, EMPTY, steps).Some? && n < |steps|
  {
    PartsRun(cfg, steps, n);
    var y := RunFrom(cfg, EMPTY, steps[..n]).value;
    && id in y.store.rows && y.store.rows[id].IsTerminal() && steps[n].Go? && steps[n].tid in y.tasks
    && LeavesTerminal(y.store, y.tasks[steps[n].tid], steps[n].outcome, id)
  }

  lemma OneStepLeaves(cfg: Settings, steps: seq<Step>, n: nat, id: string)
    requires RunFrom(cfg, EMPTY, steps).Some? && n < |steps|
    requires id in RowsAt(cfg, steps, n) && RowsAt(cfg, steps, n)[id].IsTerminal()
    ensures id in RowsAt(cfg, steps, n + 1)
    ensures RowsAt(cfg, steps, n + 1)[id].status != RowsAt(cfg, steps, n)[id].status <==> ReopensAt(cfg, steps, n, id)
  {
    PartsRun(cfg, steps, n);
    PartsRun(cfg, steps, n + 1);
    assert steps[..n + 1][..n] == steps[..n] && steps[..n + 1][n] == steps[n];
    TerminalLeftExactly(cfg, RunFrom(cfg, EMPTY, steps[..n]).value, steps[n], id);
  }

  lemma {:induction false} StatusStays(cfg: Settings, steps: seq<Step>, n: nat, m: nat, id: string)
    requires RunFrom(cfg, EMPTY, steps).Some? && n <= m <= |steps|
    requires id in RowsAt(cfg, steps, n) && RowsAt(cfg, steps, n)[id].IsTerminal()
    requires forall k | 0 <= k < |steps| :: !ReopensAt(cfg, steps, k, id)
    ensures id in RowsAt(cfg, steps, m) && RowsAt(cfg, steps, m)[id].status == RowsAt(cfg, steps, n)[id].status
    decreases m
  {
    if n < m {
      StatusStays(cfg, steps, n, m - 1, id);
      OneStepLeaves(cfg, steps, m - 1, id);
    }
  }

  /** In a run of any number of workers every end is for good exactly when none of its steps is such an update. */
  lemma EndsForGoodIff(cfg: Settings, steps: seq<Step>)
    requires RunFrom(cfg, EMPTY, steps).Some?
    ensures EndsForGood(cfg, steps) <==> forall n, id | 0 <= n < |steps| :: !ReopensAt(cfg, steps, n, id)
  {
    if EndsForGood(cfg, steps) {
      forall n, id | 0 <= n < |steps|
        ensures !ReopensAt(cfg, steps, n, id)
      {
        if ReopensAt(cfg, steps, n, id) {
          OneStepLeaves(cfg, steps, n, id);
        }
      }
    }
    if forall n, id | 0 <= n < |steps| :: !ReopensAt(cfg, steps, n, id) {
      forall n, m, id | 0 <= n <= m <= |steps| && id in RowsAt(cfg, steps, n) && RowsAt(cfg, steps, n)[id].IsTerminal()
        ensures id in RowsAt(cfg, steps, m) && RowsAt(cfg, steps, m)[id].status == RowsAt(cfg, steps, n)[id].status
      {
        StatusStays(cfg, steps, n, m, id);
      }
    }
  }

  lemma SideTaskKeepsTerminal(cfg: Settings, s: Store, t: Task, outcome: Outcome)
    requires !t.IsMain()
    ensures TerminalKept(s, StoreAfter(cfg, s, t, outcome))
  {
    CurrentTaskKeepsTerminal(cfg, s, t, outcome);
  }

  lemma RunExtends(cfg: Settings, steps: seq<Step>, step: Step)
    requires RunFrom(cfg, EMPTY, steps).Some?
    ensures RunFrom(cfg, EMPTY, steps + [step]) == Next(cfg, RunFrom(cfg, EMPTY, steps).value, step)
  {
    assert (steps + [step])[..|steps|] == steps;
  }

  lemma OneWorkerExtends(cfg: Settings, steps: seq<Step>, step: Step)
    requires OneWorkerRun(cfg, steps)
    ensures RunFrom(cfg, EMPTY, steps + [step]) == Next(cfg, RunFrom(cfg, EMPTY, steps).value, step)
    ensures var y := RunFrom(cfg, EMPTY, steps + [step]);
            OneWorkerRun(cfg, steps + [step]) <==> y.Some? && OneMain(y.value)
  {
    RunExtends(cfg, steps, step);
    var all := steps + [step];
    assert all != [] && all[..|all| - 1] == steps;
  }

  const QUICK: Settings := Settings(1, 1, 10)
  const NEW_JOB: Row := Row("t", 0, DEFAULT_MAX_ATTEMPTS, Queued, 0, Some("k"))

  /** Job "j" is produced, and worker 1 starts. */
  lemma JobArrives() returns (steps: seq<Step>, y: System)
    ensures RunFrom(QUICK, EMPTY, steps) == Some(y) && OneWorkerRun(QUICK, steps)
    ensures y.tasks == map[1 := Polling] && y.store.queue == ["j"] && y.store.clock == 0
    ensures y.store.rows == map["j" := NEW_JOB]
  {
    var started := [Produce(0, "j", "t", "k"), Go(0, Fails), StartPolling(1)];
    steps := [];
    y := EMPTY;
    for i := 0 to 3
      invariant RunFrom(QUICK, EMPTY, steps) == Some(y) && y.store.clock == 0 && OneWorkerRun(QUICK, steps)
      invariant i == 0 ==> y == EMPTY
      invariant i > 0 ==> y.store.rows == map["j" := NEW_JOB]
      invariant i == 1 ==> y.tasks == map[0 := Waking("j")] && y.store.queue == []
      invariant i == 2 ==> y.tasks == map[] && y.store.queue == ["j"]
      invariant i == 3 ==> y.tasks == map[1 := Polling] && y.store.queue == ["j"]
    {
      OneWorkerExtends(QUICK, steps, started[i]);
      steps := steps + [started[i]];
      y := RunFrom(QUICK, EMPTY, steps).value;
    }
  }

  predicate LooksLike(y: System, tasks: map<nat, Task>, row: Row, queue: seq<string>, clock: int) {
    y.tasks == tasks && y.store.rows == map["j" := row] && y.store.queue == queue && y.store.clock == clock
  }

  lemma JobIsPopped(y: System)
    requires LooksLike(y, map[1 := Polling], NEW_JOB, ["j"], 0)
    ensures Next(QUICK, y, Go(1, Fails)).Some?
    ensures LooksLike(Next(QUICK, y, Go(1, Fails)).value, map[1 := Loading("j")], NEW_JOB, [], 0)
  {
  }

  lemma JobIsLoaded(y: System)
    requires LooksLike(y, map[1 := Loading("j")], NEW_JOB, [], 0)
    ensures Next(QUICK, y, Go(1, Fails)).Some?
    ensures LooksLike(Next(QUICK, y, Go(1, Fails)).value, map[1 := Claiming("j", NEW_JOB)], NEW_JOB, [], 0)
  {
  }

  lemma JobIsClaimed(y: System)
    requires LooksLike(y, map[1 := Claiming("j", NEW_JOB)], NEW_JOB, [], 0)
    ensures Next(QUICK, y, Go(1, Fails)).Some?
    ensures LooksLike(Next(QUICK, y, Go(1, Fails)).value, map[1 := Handling("j", NEW_JOB)],
                      NEW_JOB.(status := Processing), [], 0)
  {
  }

  /** The run of one worker goes on with one step. */
  lemma GoesOn(steps: seq<Step>, y: System, step: Step) returns (more: seq<Step>, y': System)
    requires RunFrom(QUICK, EMPTY, steps) == Some(y) && OneWorkerRun(QUICK, steps)
    requires Next(QUICK, y, step).Some? && OneMain(Next(QUICK, y, step).value)
    ensures y' == Next(QUICK, y, step).value
    ensures RunFrom(QUICK, EMPTY, more) == Some(y') && OneWorkerRun(QUICK, more)
  {
    OneWorkerExtends(QUICK, steps, step);
    more, y' := steps + [step], Next(QUICK, y, step).value;
  }

  lemma OneTaskIsOneMain(y: System, t: Task)
    requires y.tasks == map[1 := t]
    ensures OneMain(y)
  {
  }

  lemma JobIsHandled() returns (steps: seq<Step>, y: System)
    ensures RunFrom(QUICK, EMPTY, steps) == Some(y) && OneWorkerRun(QUICK, steps)
    ensures LooksLike(y, map[1 := Handling("j", NEW_JOB)], NEW_JOB.(status := Processing), [], 0)
  {
    steps, y := JobArrives();
    JobIsPopped(y);
    OneTaskIsOneMain(Next(QUICK, y, Go(1, Fails)).value, Loading("j"));
    steps, y := GoesOn(steps, y, Go(1, Fails));
    JobIsLoaded(y);
    OneTaskIsOneMain(Next(QUICK, y, Go(1, Fails)).value, Claiming("j", NEW_JOB));
    steps, y := GoesOn(steps, y, Go(1, Fails));
    JobIsClaimed(y);
    OneTaskIsOneMain(Next(QUICK, y, Go(1, Fails)).value, Handling("j", NEW_JOB));
    steps, y := GoesOn(steps, y, Go(1, Fails));
  }

  /** It claims the job, and its handler takes longer than the stale limit. */
  lemma SlowWorker() returns (steps: seq<Step>, y: System)
    ensures RunFrom(QUICK, EMPTY, steps) == Some(y) && OneWorkerRun(QUICK, steps)
    ensures LooksLike(y, map[1 := Handling("j", NEW_JOB)], NEW_JOB.(status := Processing), [], 11)
  {
    steps, y := JobIsHandled();
    OneTaskIsOneMain(y.(store := y.store.(clock := y.store.clock + 11)), Handling("j", NEW_JOB));
    steps, y := GoesOn(steps, y, Elapse(11));
  }

  lemma JobIsRecovered(y: System)
    requires y.tasks == map[1 := Handling("j", NEW_JOB)] && y.store.clock == 11
    requires y.store.rows == map["j" := NEW_JOB.(status := Processing)]
    ensures Next(QUICK, y, StartRecovery(2, ["j"]))
            == Some(System(y.store.(rows := map["j" := NEW_JOB.(updatedAt := 11)]), y.tasks[2 := Pushing(["j"])]))
  {
    assert Lists(["j"], id => IsStaleProcessing(y.store, QUICK, id));
    assert StaleReset(y.store, QUICK).rows == map["j" := NEW_JOB.(updatedAt := 11)];
  }

  const RECOVERED: Row := NEW_JOB.(updatedAt := 11)

  lemma JobIsPushed(y: System)
    requires LooksLike(y, map[1 := Handling("j", NEW_JOB), 2 := Pushing(["j"])], RECOVERED, [], 11)
    ensures Next(QUICK, y, Go(2, Fails)).Some?
    ensures LooksLike(Next(QUICK, y, Go(2, Fails)).value, map[1 := Handling("j", NEW_JOB), 2 := Pushing([])],
                      RECOVERED, ["j"], 11)
  {
    assert ["j"][1..] == [];
  }

  lemma RecoveryEnds(y: System)
    requires LooksLike(y, map[1 := Handling("j", NEW_JOB), 2 := Pushing([])], RECOVERED, ["j"], 11)
    ensures Next(QUICK, y, Go(2, Fails)).Some?
    ensures LooksLike(Next(QUICK, y, Go(2, Fails)).value, map[1 := Handling("j", NEW_JOB)], RECOVERED, ["j"], 11)
  {
    assert Updated(y.tasks, 2, None) == map[1 := Handling("j", NEW_JOB)];
  }

  /** A second worker starts and recovers the job. */
  lemma SecondWorkerStarts() returns (steps: seq<Step>, y: System)
    ensures RunFrom(QUICK, EMPTY, steps) == Some(y) && !OneMain(y)
    ensures LooksLike(y, map[1 := Handling("j", NEW_JOB), 3 := Polling], RECOVERED, ["j"], 11)
  {
    steps, y := SlowWorker();
    JobIsRecovered(y);
    RunExtends(QUICK, steps, StartRecovery(2, ["j"]));
    steps, y := steps + [StartRecovery(2, ["j"])], Next(QUICK, y, StartRecovery(2, ["j"])).value;
    JobIsPushed(y);
    RunExtends(QUICK, steps, Go(2, Fails));
    steps, y := steps + [Go(2, Fails)], Next(QUICK, y, Go(2, Fails)).value;
    RecoveryEnds(y);
    RunExtends(QUICK, steps, Go(2, Fails));
    steps, y := steps + [Go(2, Fails)], Next(QUICK, y, Go(2, Fails)).value;
    RunExtends(QUICK, steps, StartPolling(3));
    steps, y := steps + [StartPolling(3)], y.(tasks := y.tasks[3 := Polling]);
    assert y.tasks[1].IsMain() && y.tasks[3].IsMain();
  }

  /** The second worker runs the job and completes it. */
  lemma SecondWorker() returns (steps: seq<Step>, y: System)
    ensures RunFrom(QUICK, EMPTY, steps) == Some(y)
    ensures y.tasks == map[1 := Handling("j", NEW_JOB), 3 := Polling]
    ensures y.store.rows.Keys == {"j"} && y.store.rows["j"].status == Completed
  {
    var row := NEW_JOB.(updatedAt := 11);
    steps, y := SecondWorkerStarts();
    for i := 0 to 5
      invariant RunFrom(QUICK, EMPTY, steps) == Some(y) && y.store.clock == 11
      invariant y.store.rows
                == map["j" := row.(status := if i < 3 then Queued else if i < 5 then Processing else Completed)]
      invariant y.store.queue == if i == 0 then ["j"] else []
      invariant y.tasks == map[1 := Handling("j", NEW_JOB),
                               3 := if i == 0 || i == 5 then Polling else if i == 1 then Loading("j")
                                    else if i == 2 then Claiming("j", row) else if i == 3 then Handling("j", row)
                                    else Completing("j", row)]
    {
      RunExtends(QUICK, steps, Go(3, Delivers));
      steps := steps + [Go(3, Delivers)];
      y := RunFrom(QUICK, EMPTY, steps).value;
    }
  }

  /** With two workers a completed job can be queued again: the slow one fails and overwrites the row. */
  lemma TwoWorkersReopenACompletedJob() returns (steps: seq<Step>, n: nat)
    ensures n <= |steps| && RunFrom(QUICK, EMPTY, steps[..n]).Some? && RunFrom(QUICK, EMPTY, steps).Some?
    ensures var before := RunFrom(QUICK, EMPTY, steps[..n]).value.store.rows;
            var after := RunFrom(QUICK, EMPTY, steps).value.store.rows;
            "j" in before && before["j"].status == Completed && "j" in after && after["j"].status == Queued
  {
    var y;
    steps, y := SecondWorker();
    n := |steps|;
    RunExtends(QUICK, steps, Go(1, Fails));
    RunExtends(QUICK, steps + [Go(1, Fails)], Go(1, Fails));
    assert (steps + [Go(1, Fails)] + [Go(1, Fails)])[..n] == steps;
    steps := steps + [Go(1, Fails)] + [Go(1, Fails)];
  }

  /** The worker runs the handler, completes the job without hearing of it, and records a failure. */
  lemma UnheardSteps(y: System)
    requires y.tasks == map[1 := Handling("j", NEW_JOB)] && y.store.rows == map["j" := NEW_JOB.(status := Processing)]
    ensures var handled := Next(QUICK, y, Go(1, Delivers)).value;
            var unheard := Next(QUICK, handled, Go(1, LosesReply(true))).value;
            var retried := Next(QUICK, unheard, Go(1, Fails)).value;
            && handled.tasks == map[1 := Completing("j", NEW_JOB)]
            && unheard.tasks == map[1 := Failing("j", NEW_JOB, false)] && retried.tasks.Keys == {1}
            && "j" in unheard.store.rows && unheard.store.rows["j"].status == Completed
            && "j" in retried.store.rows && retried.store.rows["j"].status == Queued
            && retried.store.rows["j"].attempts == 1
  {
    var handled := Next(QUICK, y, Go(1, Delivers)).value;
    assert handled.tasks == map[1 := Completing("j", NEW_JOB)] && handled.store.rows == y.store.rows;
    CompletionIsUnheard(handled);
    FailureIsCounted(Next(QUICK, handled, Go(1, LosesReply(true))).value);
  }

  lemma CompletionIsUnheard(y: System)
    requires y.tasks == map[1 := Completing("j", NEW_JOB)] && y.store.rows == map["j" := NEW_JOB.(status := Processing)]
    ensures var unheard := Next(QUICK, y, Go(1, LosesReply(true)));
            && unheard.Some? && unheard.value.tasks == map[1 := Failing("j", NEW_JOB, false)]
            && "j" in unheard.value.store.rows && unheard.value.store.rows["j"].status == Completed
  {
  }

  lemma FailureIsCounted(y: System)
    requires y.tasks == map[1 := Failing("j", NEW_JOB, false)] && "j" in y.store.rows
    ensures var retried := Next(QUICK, y, Go(1, Fails));
            && retried.Some? && retried.value.tasks.Keys == {1} && "j" in retried.value.store.rows
            && retried.value.store.rows["j"].status == Queued && retried.value.store.rows["j"].attempts == 1
  {
  }

  /**
   A single worker that does not hear of its completion counts a failure and queues the completed job again.
   */
  lemma UnheardCompletionIsReopened() returns (steps: seq<Step>, n: nat)
    ensures OneWorkerRun(QUICK, steps) && n <= |steps| && RunFrom(QUICK, EMPTY, steps[..n]).Some?
    ensures var before := RunFrom(QUICK, EMPTY, steps[..n]).value.store.rows;
            var after := RunFrom(QUICK, EMPTY, steps).value.store.rows;
            "j" in before && before["j"].status == Completed
            && "j" in after && after["j"].status == Queued && after["j"].attempts == 1
  {
    var y;
    steps, y := SlowWorker();
    UnheardSteps(y);
    var unheard := steps + [Go(1, Delivers)] + [Go(1, LosesReply(true))];
    OneWorkerExtends(QUICK, steps, Go(1, Delivers));
    OneWorkerExtends(QUICK, steps + [Go(1, Delivers)], Go(1, LosesReply(true)));
    OneWorkerExtends(QUICK, unheard, Go(1, Fails));
    steps, n := unheard + [Go(1, Fails)], |unheard|;
    assert steps[..n] == unheard;
  }
}
