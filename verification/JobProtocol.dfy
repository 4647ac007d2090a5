/**
 The job protocol as a transition system: producers, any number of workers and their schedulers take
 turns between single transactions and commands, and any of them may die between two.
 */
module JobProtocol {
  import opened Prelude
  import opened JobStore

  /** Where a task is: each state is what it will do next. `row` is the row as it was loaded. */
  datatype Task =
    | Waking(id: string)
    | Polling
    | Loading(id: string)
    | Claiming(id: string, row: Row)
    | Handling(id: string, row: Row)
    | Completing(id: string, row: Row)
    | Failing(id: string, row: Row, permanent: bool)
    | Burying(id: string)
    | Rescheduling(id: string, delay: nat)
    | Pushing(ids: seq<string>)
    | Reaping(ids: seq<string>)
    | Resetting(ids: seq<string>)
    | PushingReset(ids: seq<string>)
  {
    /** The states of the main loop of a worker; the others run beside it. */
    predicate IsMain() {
      Polling? || Loading? || Claiming? || Handling? || Completing? || Failing? || Burying? || Rescheduling?
    }

    /** Between the claim and the final update of a job. */
    predicate Holds(job: string) {
      (Handling? || Completing? || Failing?) && id == job
    }
  }

  datatype System = System(store: Store, tasks: map<nat, Task>)

  const EMPTY: System := System(EMPTY_STORE, map[])

  datatype Step =
    | Produce(tid: nat, id: string, jobType: string, key: string)
    | Elapse(ms: nat)
    | LoseRedis
    | StartPolling(tid: nat)
    | StartRecovery(tid: nat, ids: seq<string>)
    | StartRequeue(tid: nat, ids: seq<string>)
    | StartScheduler(tid: nat, ids: seq<string>)
    | Go(tid: nat, outcome: Outcome)
    | Die(tid: nat)

  predicate NoRepeats(ids: seq<string>) {
    forall i, j | 0 <= i < j < |ids| :: ids[i] != ids[j]
  }

  /** `ids` lists exactly the members of a selection. */
  ghost predicate Lists(ids: seq<string>, selected: string -> bool) {
    NoRepeats(ids) && forall id :: id in ids <==> selected(id)
  }

  /** What one task does to the store. */
  function StoreAfter(cfg: Settings, s: Store, t: Task, outcome: Outcome): Store {
    match t
    case Waking(id) => Pushed(s, id)
    case Polling => if s.queue == [] then s else Popped(s)
    case Loading(_) => s
    case Claiming(id, _) => if Claimable(s, id) then ClaimedRow(s, id) else s
    case Handling(id, row) =>
      if outcome.Commits() then HandlerCommitted(s, id, row, outcome) else s
    case Completing(id, _) =>
      if id in s.rows && outcome.Commits() then CompletedRow(s, id) else s
    case Failing(id, row, permanent) =>
      if id !in s.rows then s
      else if permanent || row.attempts + 1 >= row.maxAttempts then DeadRow(s, id, row.attempts + 1)
      else RetriedRow(s, id, row.attempts + 1)
    case Burying(id) => Buried(s, id)
    case Rescheduling(id, delay) => Scheduled(s, id, delay)
    case Pushing(ids) => if ids == [] then s else Pushed(s, ids[0])
    case Reaping(ids) => Removed(s, ids)
    case Resetting(ids) => if ids != [] && Resettable(s, ids[0]) then ResetRow(s, ids[0]) else s
    case PushingReset(ids) => if ids == [] then s else Pushed(s, ids[0])
  }

  /** Where a task is afterwards; `None` when it has ended. */
  function TaskAfter(cfg: Settings, s: Store, t: Task, outcome: Outcome): Option<Task> {
    match t
    case Waking(_) => None
    case Polling => if s.queue == [] then Some(Polling) else Some(Loading(QueueTail(s)))
    case Loading(id) =>
      if id !in s.rows || s.rows[id].IsTerminal() then Some(Polling) else Some(Claiming(id, s.rows[id]))
    case Claiming(id, row) => if Claimable(s, id) then Some(Handling(id, row)) else Some(Polling)
    case Handling(id, row) =>
      (match outcome
       case Fails => Some(Failing(id, row, false))
       case FailsPermanently => Some(Failing(id, row, true))
       case LosesReply(_) => Some(Failing(id, row, false))
       case _ => Some(Completing(id, row)))
    case Completing(id, row) =>
      if outcome.Commits() && !outcome.LosesReply? then Some(Polling) else Some(Failing(id, row, false))
    case Failing(id, row, permanent) =>
      if permanent || row.attempts + 1 >= row.maxAttempts then Some(Burying(id))
      else Some(Rescheduling(id, RetryDelay(cfg, row.attempts + 1)))
    case Burying(_) => Some(Polling)
    case Rescheduling(_, _) => Some(Polling)
    case Pushing(ids) => if ids == [] then None else Some(Pushing(ids[1..]))
    case Reaping(ids) => Some(Resetting(ids))
    case Resetting(ids) =>
      if ids == [] then None
      else if Resettable(s, ids[0]) then Some(PushingReset(ids))
      else Some(Resetting(ids[1..]))
    case PushingReset(ids) => if ids == [] then None else Some(Resetting(ids[1..]))
  }

  function Updated(tasks: map<nat, Task>, tid: nat, task: Option<Task>): map<nat, Task> {
    match task
    case None => map t | t in tasks && t != tid :: tasks[t]
    case Some(next) => tasks[tid := next]
  }

  ghost function Next(cfg: Settings, y: System, step: Step): Option<System> {
    var s := y.store;
    match step
    case Produce(tid, id, jobType, key) =>
      if id in s.rows || tid in y.tasks then None
      else
        var wake := IdToWake(s, id, key);
        Some(System(Inserted(s, id, jobType, key),
                    if wake.None? then y.tasks else y.tasks[tid := Waking(wake.value)]))
    case Elapse(ms) => Some(y.(store := s.(clock := s.clock + ms)))
    case LoseRedis => Some(y.(store := s.(queue := [], retry := map[], deadList := [])))
    case StartPolling(tid) => if tid in y.tasks then None else Some(y.(tasks := y.tasks[tid := Polling]))
    case StartRecovery(tid, ids) =>
      if tid in y.tasks || !Lists(ids, id => IsStaleProcessing(s, cfg, id)) then None
      else Some(System(StaleReset(s, cfg), y.tasks[tid := Pushing(ids)]))
    case StartRequeue(tid, ids) =>
      if tid in y.tasks || |ids| > REQUEUE_LIMIT || !NoRepeats(ids)
         || !(forall id | id in ids :: IsStaleQueued(s, cfg, id)) then None
      else Some(y.(tasks := y.tasks[tid := Pushing(ids)]))
    case StartScheduler(tid, ids) =>
      if tid in y.tasks || !Lists(ids, id => IsDue(s, id)) then None
      else Some(y.(tasks := y.tasks[tid := if ids == [] then Resetting([]) else Reaping(ids)]))
    case Go(tid, outcome) =>
      if tid !in y.tasks then None
      else Some(System(StoreAfter(cfg, s, y.tasks[tid], outcome),
                       Updated(y.tasks, tid, TaskAfter(cfg, s, y.tasks[tid], outcome))))
    case Die(tid) =>
      if tid !in y.tasks then None else Some(y.(tasks := Updated(y.tasks, tid, None)))
  }

  ghost function RunFrom(cfg: Settings, y: System, steps: seq<Step>): Option<System> {
    if steps == [] then Some(y)
    else
      match RunFrom(cfg, y, steps[..|steps| - 1])
      case None => None
      case Some(y') => Next(cfg, y', steps[|steps| - 1])
  }

  // ---- Invariants under any number of workers ----

  predicate RowSound(row: Row) {
    && 0 < row.maxAttempts && row.attempts <= row.maxAttempts
    && (!row.IsTerminal() ==> row.attempts < row.maxAttempts)
  }

  predicate KeysUnique(s: Store) {
    forall a, b | a in s.rows && b in s.rows && a != b && s.rows[a].key.Some? :: s.rows[a].key != s.rows[b].key
  }

  /** Every id that any list or task mentions has a row. */
  predicate IdsHaveRows(s: Store) {
    && (forall id | id in s.queue :: id in s.rows)
    && (forall id | id in s.retry :: id in s.rows)
    && (forall id | id in s.deadList :: id in s.rows)
  }

  /** A task works on existing rows, and what it loaded of a row still identifies it. */
  predicate TaskSound(s: Store, t: Task) {
    match t
    case Polling => true
    case Waking(id) => id in s.rows
    case Loading(id) => id in s.rows
    case Burying(id) => id in s.rows
    case Rescheduling(id, _) => id in s.rows
    case Claiming(id, row) => LoadedFrom(s, id, row)
    case Handling(id, row) => LoadedFrom(s, id, row)
    case Completing(id, row) => LoadedFrom(s, id, row) && id in s.handled
    case Failing(id, row, _) => LoadedFrom(s, id, row)
    case Pushing(ids) => forall id | id in ids :: id in s.rows
    case Reaping(ids) => forall id | id in ids :: id in s.rows
    case Resetting(ids) => forall id | id in ids :: id in s.rows
    case PushingReset(ids) => forall id | id in ids :: id in s.rows
  }

  predicate LoadedFrom(s: Store, id: string, row: Row) {
    id in s.rows && row.key == s.rows[id].key && row.maxAttempts == s.rows[id].maxAttempts
    && row.attempts < row.maxAttempts
  }

  predicate EffectsSound(s: Store) {
    && NoRepeats(s.notices)
    && (forall id | id in s.rows && s.rows[id].status == Completed :: id in s.handled)
    && (forall id | id in s.delivered :: id in s.rows && NoticeKey(id, s.rows[id]) in s.notices)
  }

  predicate StoreSound(s: Store) {
    (forall id | id in s.rows :: RowSound(s.rows[id])) && KeysUnique(s) && IdsHaveRows(s) && EffectsSound(s)
  }

  predicate Sound(y: System) {
    StoreSound(y.store) && forall tid | tid in y.tasks :: TaskSound(y.store, y.tasks[tid])
  }

  /** Rows are never deleted and keep their key and attempt limit; history only grows. */
  predicate Grows(s: Store, s': Store) {
    && (forall id | id in s.rows :: id in s'.rows && s'.rows[id].key == s.rows[id].key
                                    && s'.rows[id].maxAttempts == s.rows[id].maxAttempts)
    && s.handled <= s'.handled
  }

  lemma TaskStaysSound(s: Store, s': Store, t: Task)
    requires TaskSound(s, t) && Grows(s, s')
    ensures TaskSound(s', t)
  {
  }

  lemma UpdateKeepsSound(s: Store, id: string, row: Row)
    requires StoreSound(s) && id in s.rows && RowSound(row)
    requires row.key == s.rows[id].key && row.maxAttempts == s.rows[id].maxAttempts
    requires row.status == Completed ==> id in s.handled
    ensures StoreSound(WithRow(s, id, row)) && Grows(s, WithRow(s, id, row))
  {
  }

  lemma HandlerKeepsSound(s: Store, id: string, row: Row, outcome: Outcome)
    requires StoreSound(s) && LoadedFrom(s, id, row) && outcome.Commits()
    ensures StoreSound(HandlerCommitted(s, id, row, outcome)) && Grows(s, HandlerCommitted(s, id, row, outcome))
  {
    var s' := HandlerCommitted(s, id, row, outcome);
    assert forall key | key in s.notices :: key in s'.notices;
  }

  lemma StaleResetKeepsSound(cfg: Settings, s: Store)
    requires StoreSound(s)
    ensures StoreSound(StaleReset(s, cfg)) && Grows(s, StaleReset(s, cfg))
  {
    assert StaleReset(s, cfg).rows.Keys == s.rows.Keys;
  }

  lemma InsertKeepsSound(s: Store, id: string, jobType: string, key: string)
    requires StoreSound(s) && id !in s.rows
    ensures StoreSound(Inserted(s, id, jobType, key)) && Grows(s, Inserted(s, id, jobType, key))
    ensures IdToWake(s, id, key).Some? ==> IdToWake(s, id, key).value in Inserted(s, id, jobType, key).rows
  {
  }

  lemma ClaimKeepsSound(s: Store, id: string)
    requires StoreSound(s) && Claimable(s, id)
    ensures StoreSound(ClaimedRow(s, id)) && Grows(s, ClaimedRow(s, id))
  {
    UpdateKeepsSound(s, id, s.rows[id].(status := Processing));
  }

  lemma CompletionKeepsSound(s: Store, id: string)
    requires StoreSound(s) && id in s.rows && id in s.handled
    ensures StoreSound(CompletedRow(s, id)) && Grows(s, CompletedRow(s, id))
  {
    UpdateKeepsSound(s, id, s.rows[id].(status := Completed));
  }

  lemma FailureKeepsSound(s: Store, id: string, row: Row)
    requires StoreSound(s) && LoadedFrom(s, id, row)
    ensures StoreSound(DeadRow(s, id, row.attempts + 1)) && Grows(s, DeadRow(s, id, row.attempts + 1))
    ensures row.attempts + 1 < row.maxAttempts ==>
              StoreSound(RetriedRow(s, id, row.attempts + 1)) && Grows(s, RetriedRow(s, id, row.attempts + 1))
  {
    UpdateKeepsSound(s, id, s.rows[id].(status := Dead, attempts := row.attempts + 1));
    if row.attempts + 1 < row.maxAttempts {
      UpdateKeepsSound(s, id, s.rows[id].(status := Queued, attempts := row.attempts + 1));
    }
  }

  lemma ResetKeepsSound(s: Store, id: string)
    requires StoreSound(s) && Resettable(s, id)
    ensures StoreSound(ResetRow(s, id)) && Grows(s, ResetRow(s, id))
  {
    UpdateKeepsSound(s, id, s.rows[id].(status := Queued));
  }

  lemma NothingGrows(s: Store)
    ensures Grows(s, s)
  {
  }

  predicate IsDatabaseTask(t: Task) {
    t.Claiming? || t.Handling? || t.Completing? || t.Failing? || t.Resetting?
  }

  lemma ClaimingKeepsSound(cfg: Settings, s: Store, t: Task, outcome: Outcome)
    requires StoreSound(s) && TaskSound(s, t) && t.Claiming?
    ensures StoreSound(StoreAfter(cfg, s, t, outcome)) && Grows(s, StoreAfter(cfg, s, t, outcome))
  {
    NothingGrows(s);
    if Claimable(s, t.id) { ClaimKeepsSound(s, t.id); }
  }

  lemma HandlingKeepsSound(cfg: Settings, s: Store, t: Task, outcome: Outcome)
    requires StoreSound(s) && TaskSound(s, t) && t.Handling?
    ensures StoreSound(StoreAfter(cfg, s, t, outcome)) && Grows(s, StoreAfter(cfg, s, t, outcome))
  {
    NothingGrows(s);
    if outcome.Delivers? || outcome.Suppresses? { HandlerKeepsSound(s, t.id, t.row, outcome); }
  }

  lemma CompletingKeepsSound(cfg: Settings, s: Store, t: Task, outcome: Outcome)
    requires StoreSound(s) && TaskSound(s, t) && t.Completing?
    ensures StoreSound(StoreAfter(cfg, s, t, outcome)) && Grows(s, StoreAfter(cfg, s, t, outcome))
  {
    NothingGrows(s);
    if outcome.Delivers? || outcome.Suppresses? { CompletionKeepsSound(s, t.id); }
  }

  lemma FailedStoreIsSound(s: Store, id: string, row: Row, permanent: bool, s': Store)
    requires StoreSound(s) && LoadedFrom(s, id, row)
    requires s' == if permanent || row.attempts + 1 >= row.maxAttempts then DeadRow(s, id, row.attempts + 1)
                   else RetriedRow(s, id, row.attempts + 1)
    ensures StoreSound(s') && Grows(s, s')
  {
    FailureKeepsSound(s, id, row);
  }

  lemma FailingWrites(cfg: Settings, s: Store, t: Task, outcome: Outcome)
    requires t.Failing? && t.id in s.rows
    ensures StoreAfter(cfg, s, t, outcome)
            == if t.permanent || t.row.attempts + 1 >= t.row.maxAttempts then DeadRow(s, t.id, t.row.attempts + 1)
               else RetriedRow(s, t.id, t.row.attempts + 1)
  {
  }

  lemma FailingKeepsSound(cfg: Settings, s: Store, t: Task, outcome: Outcome)
    requires StoreSound(s) && TaskSound(s, t) && t.Failing?
    ensures StoreSound(StoreAfter(cfg, s, t, outcome)) && Grows(s, StoreAfter(cfg, s, t, outcome))
  {
    FailingWrites(cfg, s, t, outcome);
    FailedStoreIsSound(s, t.id, t.row, t.permanent, StoreAfter(cfg, s, t, outcome));
  }

  lemma ResettingKeepsSound(cfg: Settings, s: Store, t: Task, outcome: Outcome)
    requires StoreSound(s) && TaskSound(s, t) && t.Resetting?
    ensures StoreSound(StoreAfter(cfg, s, t, outcome)) && Grows(s, StoreAfter(cfg, s, t, outcome))
  {
    NothingGrows(s);
    if t.ids != [] && Resettable(s, t.ids[0]) { ResetKeepsSound(s, t.ids[0]); }
  }

  lemma RedisTaskKeepsSound(cfg: Settings, s: Store, t: Task, outcome: Outcome)
    requires StoreSound(s) && TaskSound(s, t)
    requires !IsDatabaseTask(t)
    ensures StoreSound(StoreAfter(cfg, s, t, outcome)) && Grows(s, StoreAfter(cfg, s, t, outcome))
  {
    var s' := StoreAfter(cfg, s, t, outcome);
    assert s'.rows == s.rows;
    forall id | id in s'.queue
      ensures id in s.rows
    {
    }
  }

  lemma TaskAfterIsSound(cfg: Settings, s: Store, t: Task, outcome: Outcome)
    requires StoreSound(s) && TaskSound(s, t)
    ensures TaskAfter(cfg, s, t, outcome).Some? ==>
              TaskSound(StoreAfter(cfg, s, t, outcome), TaskAfter(cfg, s, t, outcome).value)
  {
    if t.Polling? && s.queue != [] {
      assert QueueTail(s) in s.queue;
    }
  }

  lemma TaskKeepsSound(cfg: Settings, s: Store, t: Task, outcome: Outcome)
    requires StoreSound(s) && TaskSound(s, t)
    ensures StoreSound(StoreAfter(cfg, s, t, outcome)) && Grows(s, StoreAfter(cfg, s, t, outcome))
  {
    if t.Claiming? {
      ClaimingKeepsSound(cfg, s, t, outcome);
    } else if t.Handling? {
      HandlingKeepsSound(cfg, s, t, outcome);
    } else if t.Completing? {
      CompletingKeepsSound(cfg, s, t, outcome);
    } else if t.Failing? {
      FailingKeepsSound(cfg, s, t, outcome);
    } else if t.Resetting? {
      ResettingKeepsSound(cfg, s, t, outcome);
    } else {
      RedisTaskKeepsSound(cfg, s, t, outcome);
    }
  }

  lemma OthersStaySound(s: Store, s': Store, tasks: map<nat, Task>)
    requires (forall tid | tid in tasks :: TaskSound(s, tasks[tid])) && Grows(s, s')
    ensures forall tid | tid in tasks :: TaskSound(s', tasks[tid])
  {
    forall tid | tid in tasks {
      TaskStaysSound(s, s', tasks[tid]);
    }
  }

  lemma GoKeepsSound(cfg: Settings, y: System, tid: nat, outcome: Outcome)
    requires Sound(y) && tid in y.tasks
    ensures Sound(Next(cfg, y, Go(tid, outcome)).value)
    ensures Grows(y.store, Next(cfg, y, Go(tid, outcome)).value.store)
  {
    var s, t := y.store, y.tasks[tid];
    TaskKeepsSound(cfg, s, t, outcome);
    TaskAfterIsSound(cfg, s, t, outcome);
    OthersStaySound(s, StoreAfter(cfg, s, t, outcome), y.tasks);
  }

  lemma NextKeepsSound(cfg: Settings, y: System, step: Step)
    requires Sound(y) && Next(cfg, y, step).Some?
    ensures Sound(Next(cfg, y, step).value)
    ensures Grows(y.store, Next(cfg, y, step).value.store)
  {
    NothingGrows(y.store);
    match step
    case Go(tid, outcome) => GoKeepsSound(cfg, y, tid, outcome);
    case Produce(tid, id, jobType, key) =>
      InsertKeepsSound(y.store, id, jobType, key);
      OthersStaySound(y.store, Inserted(y.store, id, jobType, key), y.tasks);
    case StartRecovery(tid, ids) =>
      StaleResetKeepsSound(cfg, y.store);
      OthersStaySound(y.store, StaleReset(y.store, cfg), y.tasks);
    case _ => OthersStaySound(y.store, Next(cfg, y, step).value.store, y.tasks);
  }

  /**
   Whatever the interleaving, the number of workers and the crashes: every id in a list or a task has
   a row, keys identify rows, non-terminal rows have attempts left, a completed job's handler has
   committed, and notifications are unique per key.
   */
  lemma {:induction false} EveryRunIsSound(cfg: Settings, steps: seq<Step>)
    requires RunFrom(cfg, EMPTY, steps).Some?
    ensures Sound(RunFrom(cfg, EMPTY, steps).value)
  {
    if steps != [] {
      EveryRunIsSound(cfg, steps[..|steps| - 1]);
      NextKeepsSound(cfg, RunFrom(cfg, EMPTY, steps[..|steps| - 1]).value, steps[|steps| - 1]);
    }
  }

  /** A delivered job has exactly one notification under its durable key. */
  lemma DeliveredExactlyOnce(cfg: Settings, steps: seq<Step>, id: string)
    requires RunFrom(cfg, EMPTY, steps).Some? && id in RunFrom(cfg, EMPTY, steps).value.store.delivered
    ensures var s := RunFrom(cfg, EMPTY, steps).value.store;
            id in s.rows && Once(s.notices, NoticeKey(id, s.rows[id]))
  {
    EveryRunIsSound(cfg, steps);
    var s := RunFrom(cfg, EMPTY, steps).value.store;
    var i :| 0 <= i < |s.notices| && s.notices[i] == NoticeKey(id, s.rows[id]);
  }

  predicate Once(notices: seq<string>, key: string) {
    exists i | 0 <= i < |notices| :: notices[i] == key && forall j | 0 <= j < |notices| && notices[j] == key :: j == i
  }
}
