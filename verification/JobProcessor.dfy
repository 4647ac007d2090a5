/**
 The worker's operations as they run when nothing else interferes: what each of them does to the store
 as a whole, and the imperative form of the worker proved against it.
 */
module JobProcessing {
  import opened Prelude
  import opened JobStore

  // ---- What each operation does ----

  /** A failed run is recorded, and the job is buried or scheduled again. */
  function Failed(cfg: Settings, s: Store, id: string, row: Row, permanent: bool): Store
    requires id in s.rows
  {
    if permanent || row.attempts + 1 >= row.maxAttempts then Buried(DeadRow(s, id, row.attempts + 1), id)
    else Scheduled(RetriedRow(s, id, row.attempts + 1), id, RetryDelay(cfg, row.attempts + 1))
  }

  /** How the handler ends, and how the update to 'completed' does. */
  datatype Attempt = Attempt(handling: Outcome, completing: Outcome)

  function Processed(cfg: Settings, s: Store, id: string, attempt: Attempt): Store {
    if id !in s.rows || !Claimable(s, id) then s
    else
      var row, claimed := s.rows[id], ClaimedRow(s, id);
      match attempt.handling
      case Fails => Failed(cfg, claimed, id, row, false)
      case FailsPermanently => Failed(cfg, claimed, id, row, true)
      case LosesReply(_) => Failed(cfg, HandlerCommitted(claimed, id, row, attempt.handling), id, row, false)
      case outcome =>
        var done := HandlerCommitted(claimed, id, row, outcome);
        var ended := if attempt.completing.Commits() then CompletedRow(done, id) else done;
        if attempt.completing.Commits() && !attempt.completing.LosesReply? then ended
        else Failed(cfg, ended, id, row, false)
  }

  function PushedAll(s: Store, ids: seq<string>): Store
    decreases ids
  {
    if ids == [] then s else PushedAll(Pushed(s, ids[0]), ids[1..])
  }

  /** One scheduler tick over the due jobs: the live ones are reset and pushed. */
  function ResetAll(s: Store, ids: seq<string>): Store
    decreases ids
  {
    if ids == [] then s
    else if Resettable(s, ids[0]) then ResetAll(Pushed(ResetRow(s, ids[0]), ids[0]), ids[1..])
    else ResetAll(s, ids[1..])
  }

  // ---- Runs left to a row ----

  /** How often the job can still run. */
  function Left(row: Row): nat {
    if row.IsTerminal() || row.attempts >= row.maxAttempts then 0 else row.maxAttempts - row.attempts
  }

  ghost predicate SameJobs(s: Store, s': Store) {
    s'.rows.Keys == s.rows.Keys && forall id | id in s.rows :: s'.rows[id].maxAttempts == s.rows[id].maxAttempts
  }

  ghost predicate OthersKept(s: Store, s': Store, id: string) {
    SameJobs(s, s') && forall other | other in s.rows && other != id :: s'.rows[other] == s.rows[other]
  }

  predicate NoneProcessing(s: Store) {
    forall id | id in s.rows :: s.rows[id].status != Processing
  }

  lemma FailingCounts(cfg: Settings, s: Store, id: string, row: Row, permanent: bool)
    requires id in s.rows && row.maxAttempts == s.rows[id].maxAttempts
    ensures var s' := Failed(cfg, s, id, row, permanent);
            && s'.rows == s.rows[id := s'.rows[id]] && s'.queue == s.queue
            && s'.rows[id].maxAttempts == row.maxAttempts && s'.rows[id].attempts == row.attempts + 1
            && (s'.rows[id].status == Dead || (s'.rows[id].status == Queued && row.attempts + 1 < row.maxAttempts))
  {
  }

  /** The handler commits and is heard; the completion may fail in any way. */
  lemma HandledChangesOneRow(cfg: Settings, s: Store, id: string, attempt: Attempt)
    requires Claimable(s, id) && attempt.handling.Commits() && !attempt.handling.LosesReply?
    ensures var s', row := Processed(cfg, s, id, attempt), Processed(cfg, s, id, attempt).rows[id];
            && s'.rows == s.rows[id := row] && s'.queue == s.queue && row.maxAttempts == s.rows[id].maxAttempts
            && (row.IsTerminal() || (row.status == Queued && row.attempts == s.rows[id].attempts + 1 < row.maxAttempts))
  {
    var loaded := s.rows[id];
    var done := HandlerCommitted(ClaimedRow(s, id), id, loaded, attempt.handling);
    if attempt.completing.LosesReply? {
      FailingCounts(cfg, CompletedRow(done, id), id, loaded, false);
      FailingCounts(cfg, done, id, loaded, false);
    } else if !attempt.completing.Commits() {
      FailingCounts(cfg, done, id, loaded, false);
    }
  }

  /** Processing changes the row of the claimed job only: the job ends, or one more attempt is counted. */
  lemma ProcessingChangesOneRow(cfg: Settings, s: Store, id: string, attempt: Attempt) returns (row: Row)
    requires Claimable(s, id)
    ensures Processed(cfg, s, id, attempt).rows == s.rows[id := row]
    ensures Processed(cfg, s, id, attempt).queue == s.queue && row.maxAttempts == s.rows[id].maxAttempts
    ensures row.IsTerminal() || (row.status == Queued && row.attempts == s.rows[id].attempts + 1 < row.maxAttempts)
  {
    row := Processed(cfg, s, id, attempt).rows[id];
    var loaded, claimed := s.rows[id], ClaimedRow(s, id);
    match attempt.handling
    case Fails => FailingCounts(cfg, claimed, id, loaded, false);
    case FailsPermanently => FailingCounts(cfg, claimed, id, loaded, true);
    case LosesReply(_) =>
      FailingCounts(cfg, HandlerCommitted(claimed, id, loaded, attempt.handling), id, loaded, false);
    case _ => HandledChangesOneRow(cfg, s, id, attempt);
  }

  /** Processing uses up one of the runs left, whatever the handler does, and touches no other row. */
  lemma ProcessingMakesProgress(cfg: Settings, s: Store, id: string, attempt: Attempt)
    requires Claimable(s, id) && s.rows[id].attempts < s.rows[id].maxAttempts && NoneProcessing(s)
    ensures OthersKept(s, Processed(cfg, s, id, attempt), id) && NoneProcessing(Processed(cfg, s, id, attempt))
    ensures Left(Processed(cfg, s, id, attempt).rows[id]) < Left(s.rows[id])
    ensures Processed(cfg, s, id, attempt).queue == s.queue
  {
    var row := ProcessingChangesOneRow(cfg, s, id, attempt);
  }

  /** What is pushed goes to the front of the queue, the last id first. */
  function Reversed(ids: seq<string>): seq<string> {
    if ids == [] then [] else Reversed(ids[1..]) + [ids[0]]
  }

  lemma {:induction false} PushedAllIs(s: Store, ids: seq<string>)
    ensures PushedAll(s, ids) == s.(queue := Reversed(ids) + s.queue)
    decreases ids
  {
    if ids == [] {
      assert [] + s.queue == s.queue;
    } else {
      PushedAllIs(Pushed(s, ids[0]), ids[1..]);
      assert Reversed(ids) + s.queue == Reversed(ids[1..]) + ([ids[0]] + s.queue);
    }
  }

  lemma {:induction false} ReversedHolds(ids: seq<string>, id: string)
    ensures id in Reversed(ids) <==> id in ids
  {
    if ids != [] {
      ReversedHolds(ids[1..], id);
      assert ids == [ids[0]] + ids[1..];
    }
  }

  lemma {:induction false} PushedAllAppends(s: Store, ids: seq<string>, id: string)
    ensures PushedAll(s, ids + [id]) == Pushed(PushedAll(s, ids), id)
    decreases ids
  {
    if ids == [] {
      assert [] + [id] == [id] && [id][1..] == [];
    } else {
      PushedAllAppends(Pushed(s, ids[0]), ids[1..], id);
      assert (ids + [id])[1..] == ids[1..] + [id];
    }
  }

  lemma {:induction false} ResetAllAppends(s: Store, ids: seq<string>, id: string)
    ensures ResetAll(s, ids + [id])
            == var before := ResetAll(s, ids);
               if Resettable(before, id) then Pushed(ResetRow(before, id), id) else before
    decreases ids
  {
    if ids == [] {
      assert [] + [id] == [id] && [id][1..] == [];
    } else {
      var next := if Resettable(s, ids[0]) then Pushed(ResetRow(s, ids[0]), ids[0]) else s;
      ResetAllAppends(next, ids[1..], id);
      assert (ids + [id])[1..] == ids[1..] + [id];
    }
  }

  /** A tick resets exactly the due jobs that are alive; a terminal row stays as it is. */
  lemma {:induction false} ResetAllIs(s: Store, ids: seq<string>, id: string)
    requires id in s.rows
    ensures id in ResetAll(s, ids).rows
    ensures ResetAll(s, ids).rows[id] == if id in ids && !s.rows[id].IsTerminal()
                                         then s.rows[id].(status := Queued, updatedAt := s.clock) else s.rows[id]
    ensures id in ResetAll(s, ids).queue <==> id in s.queue || (id in ids && !s.rows[id].IsTerminal())
    ensures ResetAll(s, ids).clock == s.clock
    decreases ids
  {
    if ids != [] {
      var next := if Resettable(s, ids[0]) then Pushed(ResetRow(s, ids[0]), ids[0]) else s;
      ResetAllIs(next, ids[1..], id);
      assert ids == [ids[0]] + ids[1..];
    }
  }

  // ---- The worker ----

  /** The worker process: its view of the database and of Redis is `store`. */
  class JobProcessor {
    const cfg: Settings
    var store: Store

    constructor (cfg: Settings, store: Store)
      ensures this.cfg == cfg && this.store == store
    {
      this.cfg, this.store := cfg, store;
    }

    /** The catch block. */
    method RecordFailure(id: string, row: Row, permanent: bool)
      requires id in store.rows
      modifies this
      ensures store == Failed(cfg, old(store), id, row, permanent)
    {
      var nextAttempts := row.attempts + 1;
      if permanent || nextAttempts >= row.maxAttempts {
        store := DeadRow(store, id, nextAttempts);
        store := Buried(store, id);
      } else {
        var delay := RetryDelay(cfg, nextAttempts);
        store := RetriedRow(store, id, nextAttempts);
        store := Scheduled(store, id, delay);
      }
    }

    method ProcessOne(id: string, attempt: Attempt)
      modifies this
      ensures store == Processed(cfg, old(store), id, attempt)
    {
      if id !in store.rows {
        return;
      }
      var row := store.rows[id];
      if row.IsTerminal() {
        return;
      }
      if !Claimable(store, id) {
        return;
      }
      store := ClaimedRow(store, id);
      if !attempt.handling.Commits() {
        RecordFailure(id, row, attempt.handling.FailsPermanently?);
        return;
      }
      store := HandlerCommitted(store, id, row, attempt.handling);
      if attempt.handling.LosesReply? {
        RecordFailure(id, row, false);
        return;
      }
      if attempt.completing.Commits() {
        store := CompletedRow(store, id);
      }
      if !attempt.completing.Commits() || attempt.completing.LosesReply? {
        RecordFailure(id, row, false);
      }
    }

    /** `stale` is what the UPDATE returns. */
    method RecoverStale(stale: seq<string>)
      modifies this
      ensures store == PushedAll(StaleReset(old(store), cfg), stale)
    {
      store := StaleReset(store, cfg);
      ghost var reset := store;
      for i := 0 to |stale|
        invariant store == PushedAll(reset, stale[..i])
      {
        PushedAllAppends(reset, stale[..i], stale[i]);
        assert stale[..i + 1] == stale[..i] + [stale[i]];
        store := Pushed(store, stale[i]);
      }
      assert stale[..|stale|] == stale;
    }

    /** `pending` is what the SELECT returns; pushes of the ids in `refused` fail and are skipped. */
    method RequeuePending(pending: seq<string>, refused: set<string>) returns (requeued: nat)
      modifies this
      ensures store == PushedAll(old(store), Accepted(pending, refused))
      ensures requeued == |Accepted(pending, refused)|
    {
      requeued := 0;
      for i := 0 to |pending|
        invariant store == PushedAll(old(store), Accepted(pending[..i], refused))
        invariant requeued == |Accepted(pending[..i], refused)|
      {
        assert pending[..i + 1][..i] == pending[..i] && pending[..i + 1][i] == pending[i];
        assert Accepted(pending[..i], refused) + [] == Accepted(pending[..i], refused);
        if pending[i] !in refused {
          PushedAllAppends(old(store), Accepted(pending[..i], refused), pending[i]);
          store := Pushed(store, pending[i]);
          requeued := requeued + 1;
        }
      }
      assert pending[..|pending|] == pending;
    }

    /** `due` is what the range query returns: the members of the retry set whose time has come. */
    method RunScheduler(due: seq<string>)
      modifies this
      ensures store == ResetAll(Removed(old(store), due), due)
    {
      if due == [] {
        assert Removed(store, due).retry == store.retry;
        return;
      }
      store := Removed(store, due);
      ghost var reaped := store;
      for i := 0 to |due|
        invariant store == ResetAll(reaped, due[..i])
      {
        ResetAllAppends(reaped, due[..i], due[i]);
        assert due[..i + 1] == due[..i] + [due[i]];
        if Resettable(store, due[i]) {
          store := ResetRow(store, due[i]);
          store := Pushed(store, due[i]);
        }
      }
      assert due[..|due|] == due;
    }
  }

  function Accepted(ids: seq<string>, refused: set<string>): seq<string> {
    if ids == [] then []
    else
      var last := ids[|ids| - 1];
      Accepted(ids[..|ids| - 1], refused) + if last in refused then [] else [last]
  }
}
