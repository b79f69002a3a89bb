/**
 * The Redis lock backend (celery_singleton/backends/redis.py).  The Redis
 * server is an in-memory map from key to value: SETNX inserts a key that
 * is absent, DEL removes a key, GET looks one up.  SCAN is an oracle: the
 * replies it gives, call by call, are a parameter of `Clear`.
 */
module RedisStore {
  import opened Wrappers
  import opened Py
  import opened BackendContract

  /** One reply of `SCAN cursor MATCH pattern`: the next cursor and a page
      of matching keys. */
  datatype ScanReply = ScanReply(cursor: nat, keys: seq<string>)

  function Elems(keys: seq<string>): set<string>
  {
    set k | k in keys
  }

  /** Every key returned by the given replies. */
  function ReturnedKeys(replies: seq<ScanReply>): set<string>
  {
    if replies == [] then {} else ReturnedKeys(replies[..|replies| - 1]) + Elems(replies[|replies| - 1].keys)
  }

  /** What Redis guarantees of a complete SCAN iteration with `MATCH
      prefix*`: the last reply, and only the last, has cursor 0; every key
      returned matches the pattern; every matching key present throughout
      the iteration is returned at least once. */
  predicate ScanComplete(store: Store, prefix: string, replies: seq<ScanReply>)
  {
    |replies| > 0 &&
    replies[|replies| - 1].cursor == 0 &&
    (forall i :: 0 <= i < |replies| - 1 ==> replies[i].cursor != 0) &&
    (forall i, k :: 0 <= i < |replies| && k in replies[i].keys ==> StartsWith(k, prefix)) &&
    (forall k :: k in store && StartsWith(k, prefix) ==> k in ReturnedKeys(replies))
  }

  lemma {:induction false} ReturnedKeysMatch(replies: seq<ScanReply>, prefix: string)
    requires forall i, k :: 0 <= i < |replies| && k in replies[i].keys ==> StartsWith(k, prefix)
    ensures forall k :: k in ReturnedKeys(replies) ==> StartsWith(k, prefix)
  {
    if replies != [] {
      var init := replies[..|replies| - 1];
      forall i, k | 0 <= i < |init| && k in init[i].keys ensures StartsWith(k, prefix) {
        assert init[i] == replies[i];
      }
      ReturnedKeysMatch(init, prefix);
    }
  }

  class RedisBackend {
    /** The keys and values held by the Redis server. */
    var store: Store

    constructor (initial: Store)
      ensures store == initial
    {
      store := initial;
    }

    /** `setnx(lock, task_id)`.  The expiry the coordinator passes along is
        accepted and has no effect. */
    method Lock(key: string, taskId: string, expiry: Option<int>) returns (acquired: bool)
      modifies this
      ensures LockContract(old(store), store, key, taskId, acquired)
    {
      if key in store {
        acquired := false;
      } else {
        store := store[key := taskId];
        acquired := true;
      }
    }

    /** `delete(lock)`. */
    method Unlock(key: string)
      modifies this
      ensures UnlockContract(old(store), store, key)
    {
      store := store - {key};
    }

    /** `get(lock)`. */
    method Get(key: string) returns (owner: Option<string>)
      ensures owner == Owner(store, key)
    {
      if key in store {
        owner := Some(store[key]);
      } else {
        owner := None;
      }
    }

    /** `clear(key_prefix)`: scans with `MATCH key_prefix*` from cursor 0,
        deletes every key of each page, and stops after the reply whose
        cursor is 0.  `replies` are the scan replies, in call order. */
    method Clear(prefix: string, replies: seq<ScanReply>)
      requires ScanComplete(store, prefix, replies)
      modifies this
      ensures ClearContract(old(store), store, prefix)
    {
      var cursor := 0;
      var calls := 0;
      while true
        invariant 0 <= calls < |replies|
        invariant store == old(store) - ReturnedKeys(replies[..calls])
        decreases |replies| - calls
      {
        var reply := replies[calls];
        cursor := reply.cursor;
        var keys := reply.keys;
        var j := 0;
        while j < |keys|
          invariant 0 <= j <= |keys|
          invariant store == old(store) - ReturnedKeys(replies[..calls]) - Elems(keys[..j])
        {
          store := store - {keys[j]};
          assert Elems(keys[..j + 1]) == Elems(keys[..j]) + {keys[j]} by {
            assert keys[..j + 1] == keys[..j] + [keys[j]];
          }
          j := j + 1;
        }
        assert keys[..j] == keys;
        assert replies[..calls + 1][..calls] == replies[..calls];
        calls := calls + 1;
        if cursor == 0 {
          break;
        }
      }
      assert replies[..calls] == replies;
      ReturnedKeysMatch(replies, prefix);
    }
  }
}
