/**
 * The contract every lock backend keeps (celery_singleton/backends/base.py):
 * a store from lock keys to the id of the task holding the lock, read and
 * changed by `lock`, `unlock`, `get` and `clear`.  Each operation is stated
 * as a relation between the store before and after the call; a backend's
 * methods promise these relations.
 */
module BackendContract {
  import opened Wrappers
  import opened Py

  /** Lock key to the id of the task that holds it. */
  type Store = map<string, string>

  /** `get(lock)`: the task id stored for the key, or None. */
  function Owner(store: Store, key: string): (r: Option<string>)
    ensures r.Some? <==> key in store
    ensures r.Some? ==> r.value == store[key]
  {
    if key in store then Some(store[key]) else None
  }

  /** `lock(lock, task_id)`: acquired exactly when no lock existed; then the
      key holds the task id, otherwise nothing changes. */
  predicate LockContract(before: Store, after: Store, key: string, taskId: string, acquired: bool)
  {
    (acquired <==> key !in before) &&
    (acquired ==> after == before[key := taskId]) &&
    (!acquired ==> after == before)
  }

  /** `unlock(lock)`: the key is gone, whether or not it was there. */
  predicate UnlockContract(before: Store, after: Store, key: string)
  {
    after == before - {key}
  }

  /** The store without the keys under `prefix`. */
  function WithoutPrefix(store: Store, prefix: string): (r: Store)
    ensures forall k :: k in r <==> k in store && !StartsWith(k, prefix)
    ensures forall k :: k in r ==> r[k] == store[k]
  {
    map k | k in store && !StartsWith(k, prefix) :: store[k]
  }

  /** `clear(key_prefix)`: every lock under the prefix is removed. */
  predicate ClearContract(before: Store, after: Store, prefix: string)
  {
    after == WithoutPrefix(before, prefix)
  }

  /** After a successful lock, `get` returns the locking task's id, and the
      other keys are as they were. */
  lemma LockThenGet(before: Store, after: Store, key: string, taskId: string)
    requires LockContract(before, after, key, taskId, true)
    ensures Owner(before, key) == None
    ensures Owner(after, key) == Some(taskId)
    ensures forall k :: k != key ==> Owner(after, k) == Owner(before, k)
  {
  }

  /** A lock that is already held is not taken over. */
  lemma LockHeldKeepsOwner(before: Store, after: Store, key: string, taskId: string, acquired: bool)
    requires key in before && LockContract(before, after, key, taskId, acquired)
    ensures !acquired && Owner(after, key) == Owner(before, key)
  {
  }

  /** After unlock, `get` returns None and every other key is unchanged. */
  lemma UnlockThenGet(before: Store, after: Store, key: string)
    requires UnlockContract(before, after, key)
    ensures Owner(after, key) == None
    ensures forall k :: k != key ==> Owner(after, k) == Owner(before, k)
  {
  }

  /** After clear, no key under the prefix is left and the other keys keep
      their owners. */
  lemma ClearThenGet(before: Store, after: Store, prefix: string)
    requires ClearContract(before, after, prefix)
    ensures forall k :: StartsWith(k, prefix) ==> Owner(after, k) == None
    ensures forall k :: !StartsWith(k, prefix) ==> Owner(after, k) == Owner(before, k)
  {
  }

  /** Unlocking a key under the prefix before clearing does not change what
      clearing leaves. */
  lemma ClearAbsorbsUnlock(store: Store, key: string, prefix: string)
    requires StartsWith(key, prefix)
    ensures WithoutPrefix(store - {key}, prefix) == WithoutPrefix(store, prefix)
  {
  }
}
