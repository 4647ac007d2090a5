/**
 Durable jobs: rows in the database, wake-up lists in Redis, and the single statements and commands
 with which the producers, the worker and its scheduler change them.
 */
module JobStore {
  import opened Prelude

  datatype Status = Queued | Processing | Completed | Dead

  datatype Row = Row(
    jobType: string, attempts: nat, maxAttempts: nat, status: Status, updatedAt: int, key: Option<string>)
  {
    predicate IsTerminal() { status == Completed || status == Dead }
  }

  const DEFAULT_MAX_ATTEMPTS: nat := 5
  const REQUEUE_LIMIT: nat := 500

  datatype Settings = Settings(retryBaseMs: nat, retryMaxMs: nat, staleMs: nat)

  /**
   `queue` is pushed at the front and popped at the back; `retry` holds due times. `notices` are the
   notification rows by their unique key. `handled` and `delivered` record history only: the jobs
   whose handler transaction has committed, and those for which it inserted a notification.
   */
  datatype Store = Store(
    rows: map<string, Row>, queue: seq<string>, retry: map<string, int>, deadList: seq<string>,
    notices: seq<string>, clock: int, handled: set<string>, delivered: set<string>)

  const EMPTY_STORE: Store := Store(map[], [], map[], [], [], 0, {}, {})

  // ---- Producers ----

  predicate HasKey(s: Store, key: string) {
    exists id | id in s.rows :: s.rows[id].key == Some(key)
  }

  ghost function RowWithKey(s: Store, key: string): (id: string)
    requires HasKey(s, key)
    ensures id in s.rows && s.rows[id].key == Some(key)
  {
    var id :| id in s.rows && s.rows[id].key == Some(key);
    id
  }

  /** INSERT ... ON CONFLICT (idempotency_key) DO NOTHING, with a fresh id. */
  function Inserted(s: Store, id: string, jobType: string, key: string): Store
    requires id !in s.rows
  {
    if HasKey(s, key) then s
    else s.(rows := s.rows[id := Row(jobType, 0, DEFAULT_MAX_ATTEMPTS, Queued, s.clock, Some(key))])
  }

  /** The id to wake the worker for; a terminal job is not woken. */
  ghost function IdToWake(s: Store, id: string, key: string): Option<string> {
    if !HasKey(s, key) then Some(id)
    else if s.rows[RowWithKey(s, key)].IsTerminal() then None
    else Some(RowWithKey(s, key))
  }

  // ---- Redis ----

  function Pushed(s: Store, id: string): Store {
    s.(queue := [id] + s.queue)
  }

  function Popped(s: Store): Store
    requires s.queue != []
  {
    s.(queue := s.queue[..|s.queue| - 1])
  }

  function QueueTail(s: Store): string
    requires s.queue != []
  {
    s.queue[|s.queue| - 1]
  }

  function Scheduled(s: Store, id: string, delay: nat): Store {
    s.(retry := s.retry[id := s.clock + delay])
  }

  predicate IsDue(s: Store, id: string) {
    id in s.retry && s.retry[id] <= s.clock
  }

  function Removed(s: Store, ids: seq<string>): Store {
    s.(retry := map id | id in s.retry && id !in ids :: s.retry[id])
  }

  function Buried(s: Store, id: string): Store {
    s.(deadList := [id] + s.deadList)
  }

  // ---- Database ----

  /** UPDATE ... SET status = 'processing' WHERE id AND status = 'queued'. */
  predicate Claimable(s: Store, id: string) {
    id in s.rows && s.rows[id].status == Queued
  }

  function WithRow(s: Store, id: string, row: Row): Store {
    s.(rows := s.rows[id := row.(updatedAt := s.clock)])
  }

  function ClaimedRow(s: Store, id: string): Store
    requires Claimable(s, id)
  {
    WithRow(s, id, s.rows[id].(status := Processing))
  }

  /** The unconditional updates at the end of a job. */
  function CompletedRow(s: Store, id: string): Store
    requires id in s.rows
  {
    WithRow(s, id, s.rows[id].(status := Completed))
  }

  function DeadRow(s: Store, id: string, attempts: nat): Store
    requires id in s.rows
  {
    WithRow(s, id, s.rows[id].(status := Dead, attempts := attempts))
  }

  function RetriedRow(s: Store, id: string, attempts: nat): Store
    requires id in s.rows
  {
    WithRow(s, id, s.rows[id].(status := Queued, attempts := attempts))
  }

  predicate IsStale(s: Store, cfg: Settings, id: string) {
    id in s.rows && s.rows[id].updatedAt < s.clock - cfg.staleMs
  }

  /** The stale reconciler's UPDATE: every stale processing row becomes queued. */
  function StaleReset(s: Store, cfg: Settings): Store {
    s.(rows := map id | id in s.rows ::
         if s.rows[id].status == Processing && IsStale(s, cfg, id)
         then s.rows[id].(status := Queued, updatedAt := s.clock) else s.rows[id])
  }

  predicate IsStaleProcessing(s: Store, cfg: Settings, id: string) {
    IsStale(s, cfg, id) && s.rows[id].status == Processing
  }

  predicate IsStaleQueued(s: Store, cfg: Settings, id: string) {
    IsStale(s, cfg, id) && s.rows[id].status == Queued
  }

  /** The scheduler's reset: WHERE id AND status NOT IN ('completed', 'dead'). */
  predicate Resettable(s: Store, id: string) {
    id in s.rows && !s.rows[id].IsTerminal()
  }

  function ResetRow(s: Store, id: string): Store
    requires Resettable(s, id)
  {
    WithRow(s, id, s.rows[id].(status := Queued))
  }

  // ---- The handler ----

  /**
   How one transaction ends, the handler's or the update to 'completed'. A delivery may find the notification
   already there. When a reply is lost the transaction has committed, but the worker sees an error.
   */
  datatype Outcome = Delivers | Suppresses | LosesReply(delivers: bool) | Fails | FailsPermanently
  {
    predicate Commits() { Delivers? || Suppresses? || LosesReply? }
    predicate Inserts() { Delivers? || (LosesReply? && delivers) }
  }

  /** The durable identity of the job keys the notification. */
  function NoticeKey(id: string, row: Row): string {
    if row.key.Some? then row.key.value else "job:" + id
  }

  /** The handler's transaction; the insert does nothing when the key exists. */
  function HandlerCommitted(s: Store, id: string, row: Row, outcome: Outcome): Store
    requires outcome.Commits()
  {
    var key := NoticeKey(id, row);
    var notices := if !outcome.Inserts() || key in s.notices then s.notices else s.notices + [key];
    s.(notices := notices, handled := s.handled + {id},
       delivered := if outcome.Inserts() then s.delivered + {id} else s.delivered)
  }

  // ---- Back-off ----

  function Pow2(n: nat): nat {
    if n == 0 then 1 else 2 * Pow2(n - 1)
  }

  function RetryDelay(cfg: Settings, nextAttempts: nat): nat
    requires nextAttempts > 0
  {
    var delay := cfg.retryBaseMs * Pow2(nextAttempts - 1);
    if delay < cfg.retryMaxMs then delay else cfg.retryMaxMs
  }
}
