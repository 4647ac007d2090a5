/**
 The producers: a job row is inserted once per idempotency key, and a live job's id is pushed to wake
 the worker.
 */
module Outbox {
  import opened Prelude
  import opened JobStore
  import opened JobProtocol

  class Producer {
    var store: Store

    constructor (store: Store)
      ensures this.store == store
    {
      this.store := store;
    }

    /** `id` is the identifier the database would generate for a new row. */
    method InsertJobRow(id: string, jobType: string, key: string) returns (wake: Option<string>)
      requires StoreSound(store) && id !in store.rows
      modifies this
      ensures store == Inserted(old(store), id, jobType, key) && StoreSound(store)
      ensures wake == IdToWake(old(store), id, key)
      ensures wake.Some? ==> wake.value in store.rows && store.rows[wake.value].key == Some(key)
                             && !store.rows[wake.value].IsTerminal()
    {
      InsertKeepsSound(store, id, jobType, key);
      if HasKey(store, key) {
        var existing :| existing in store.rows && store.rows[existing].key == Some(key);
        assert existing == RowWithKey(store, key);
        wake := if store.rows[existing].IsTerminal() then None else Some(existing);
      } else {
        var row := Row(jobType, 0, DEFAULT_MAX_ATTEMPTS, Queued, store.clock, Some(key));
        store := store.(rows := store.rows[id := row]);
        wake := Some(id);
      }
    }

    /** A push that fails is swallowed. */
    method WakeJob(id: string, accepted: bool)
      modifies this
      ensures store == if accepted then Pushed(old(store), id) else old(store)
    {
      if accepted {
        store := Pushed(store, id);
      }
    }

    method EnqueueJob(id: string, jobType: string, key: string, accepted: bool)
      requires StoreSound(store) && id !in store.rows
      modifies this
      ensures StoreSound(store)
      ensures var inserted, wake := Inserted(old(store), id, jobType, key), IdToWake(old(store), id, key);
              store == if wake.Some? && accepted then Pushed(inserted, wake.value) else inserted
    {
      var wake := InsertJobRow(id, jobType, key);
      if wake.Some? {
        WakeJob(wake.value, accepted);
      }
    }
  }

  /** However often a key is enqueued, it keeps one row, and only the first call adds it. */
  lemma KeyHasOneRow(s: Store, a: string, b: string, typeA: string, typeB: string, key: string)
    requires StoreSound(s) && a !in s.rows && b !in s.rows && a != b
    ensures Inserted(Inserted(s, a, typeA, key), b, typeB, key) == Inserted(s, a, typeA, key)
    ensures var s' := Inserted(s, a, typeA, key);
            IdToWake(s', b, key)
            == if s'.rows[RowWithKey(s', key)].IsTerminal() then None else Some(RowWithKey(s', key))
  {
    var s' := Inserted(s, a, typeA, key);
    if !HasKey(s, key) {
      assert a in s'.rows && s'.rows[a].key == Some(key);
    }
    assert HasKey(s', key);
  }
}
