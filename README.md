# celery-singleton, modelled in Dafny

celery-singleton is a Celery task base class that keeps at most one queued
or running copy of a task call. When a call is submitted, the class
computes a lock key from the task name and the call's arguments. It then
takes that key in a shared lock store (Redis) with the new task's id as
the value. A second submission of the same call finds the key taken. It
then either returns a handle to the task already holding the lock, or
raises `DuplicateTaskError` with that task's id. When the task ends,
successfully or not, its key is released.

The model covers six parts:

- **Lock key** (`util.py`, modules `Json`, `JsonDecode`, `KeyOrder`, `LockKey`):
  - JSON values and their `sort_keys=True` serialisation.
  - A parser for that text, with a round-trip proof. This makes the serialisation injective on canonical values.
  - The key-sorting proofs.
  - The key itself: prefix + md5(name + args JSON + kwargs JSON).
- **Backend contract** (`backends/base.py`, module `BackendContract`): `lock`, `unlock`, `get` and `clear`. Each is a relation between the lock store before and after the call.
- **Redis backend** (`backends/redis.py`, module `RedisStore`):
  - A class over a `map<string,string>` store, whose methods are proved to keep the contract.
  - `clear` is the cursor loop over a sequence of SCAN replies.
- **Config** (`config.py`, module `Config`): the settings getters over a setting map, the backend URL fallback chain, and the splitting of a dotted class path.
- **Worker inspection** (`inspect_celery.py`, module `InspectCelery`):
  - The searches over the inspector replies, with Python's indexing and iteration errors made explicit.
  - The ping scan.
- **The coordinator** (`singleton.py`, module `Singleton`):
  - **Key selection:** `unique_on` argument selection and setting precedence.
  - **Acquisition loop:** `apply_async`'s loop as a function (`Race`) over a script of other producers' moves.
  - **`Singleton` class:** its methods change a `RedisBackend` and a `Broker`. They are proved equal to the functional model (`Dispatch`, `Challenge`, the backend contract).

Utility modules: `Wrappers` (Option, Result) and `Py` (the Python exceptions the code can raise, and `str.startswith`).

Assumptions where the source is inconsistent with itself:

- **Lock expiry:** `singleton.py:54` passes `expiry=` to the backend's `lock`, but `redis.py:11` and `base.py:6` accept only `(lock, task_id)`. The model's `Lock` takes an optional expiry and ignores it. Time is not modelled.
- **Backend construction:** `backends/__init__.py:22` reads `config.broker_transport_options`, which `config.py` never defines. Backend construction is not modelled.

## Model

| member | source | states |
|---|---|---|
| KeyOrder.LookupFirst | celery_singleton/singleton.py:72 | dict subscript on a key/value sequence: None exactly when no entry has the key, otherwise the value of the first entry with that key |
| KeyOrder.SortPermutes | celery_singleton/util.py:13 | sorting the keyword arguments by key keeps exactly the same entries (a permutation) |
| KeyOrder.SortSorts | celery_singleton/util.py:13 | the keyword arguments come out in ascending key order (code-point order, as Python compares str) |
| KeyOrder.SortIgnoresInsertionOrder | celery_singleton/util.py:13 | two orderings of the same distinct-key dict sort to the same sequence |
| Json.Canon | celery_singleton/util.py:12-13 | the key-sorted form keeps the kind of every value and the length of every list and dict, and leaves scalars as they are |
| Json.EscapeChar | celery_singleton/util.py:12-13 | a character is written as itself exactly when it is printable ASCII other than `"` and the backslash; every other character becomes an escape that starts with a backslash |
| Json.Emit | celery_singleton/util.py:12-13 | the text is never empty, and its first character is `[` exactly for a list, `{` exactly for a dict and `"` exactly for a str |
| Json.Dumps | celery_singleton/util.py:12-13 | `json.dumps(v, sort_keys=True)` writes a list as a JSON array, a dict as a JSON object and a str as a JSON string, and nothing else starts that way |
| JsonDecode.StringRoundTrip | celery_singleton/util.py:12-13 | every string written with JSON escapes is read back exactly, and the text after it is left intact |
| JsonDecode.EscapeRoundTrip | celery_singleton/util.py:12-13 | every single-character escape, including `\uXXXX` and surrogate pairs, decodes back to the character |
| JsonDecode.NatRoundTrip | celery_singleton/util.py:12-13 | the decimal text of a natural number reads back as that number |
| JsonDecode.RoundTrip | celery_singleton/util.py:12-13 | parsing the serialisation of any JSON value followed by a delimiter gives back the value and the rest of the text |
| JsonDecode.EmitInjective | celery_singleton/util.py:12-13 | two values with the same serialisation are equal |
| JsonDecode.DumpsIdentifiesCanon | celery_singleton/util.py:12-13 | `json.dumps(sort_keys=True)` of two values is equal exactly when their key-sorted forms are equal |
| JsonDecode.CanonObjectSorted | celery_singleton/util.py:13 | in the canonical form of a dict the keys are in sorted order and hold the canonical forms of the original values |
| JsonDecode.DumpsIgnoresKeyOrder | celery_singleton/util.py:13 | two insertion orders of the same dict serialise to the same text |
| JsonDecode.CanonArrayCongruent | celery_singleton/util.py:12-13 | two lists are written alike exactly when they have the same length and their items are written alike one by one |
| JsonDecode.CanonObjectCongruent | celery_singleton/util.py:12-13 | a dict whose entries are a reordering of a distinct-key dict, each value replaced by one written alike (its own dicts reordered at any depth), is written like the original |
| LockKey.GenerateLock | celery_singleton/util.py:5-16 | the key is the prefix followed by exactly 32 lower-case hex digits |
| LockKey.MissingArgsAreEmpty | celery_singleton/util.py:12-13 | missing args and kwargs give the same key as `[]` and `{}` |
| LockKey.KwargsOrderIgnored | celery_singleton/util.py:13 | the order keyword arguments were passed in does not change the key |
| LockKey.NestedArgsKeyOrderIgnored | celery_singleton/util.py:12-16 | positional arguments written alike one by one, such as the same dict passed with its keys in another order, give the same key |
| LockKey.NestedKwargsKeyOrderIgnored | celery_singleton/util.py:12-16 | reordering the keyword arguments together with the dicts nested in their values gives the same key |
| LockKey.HashInputIdentifiesCall | celery_singleton/util.py:12-14 | for one task name, the hashed text is the same exactly when the argument lists and the keyword dicts are equal once every dict in them, at every depth, has its keys sorted |
| LockKey.KeyIdentifiesCall | celery_singleton/util.py:12-16 | without an md5 collision on the two texts, two calls get the same key exactly when their arguments are equal once every dict in them, at every depth, has its keys sorted |
| LockKey.ArgumentOrderMatters | celery_singleton/util.py:12-14 | `[1, 2, 3]` and `[3, 2, 1]` hash different texts |
| LockKey.HashInput | celery_singleton/util.py:12-14 | the hashed text is the task name, then the argument list opening with `[`, and it ends with the closing `}` of the keyword dict |
| BackendContract.Owner | celery_singleton/backends/base.py:28-36 | `get` returns the stored task id, or None exactly when no lock exists |
| BackendContract.WithoutPrefix | celery_singleton/backends/base.py:39-46 | the store after clearing keeps exactly the keys not under the prefix, with their values |
| BackendContract.LockThenGet | celery_singleton/backends/base.py:6-36 | after a successful lock the key was free before, `get` now returns the task id, and every other key is unchanged |
| BackendContract.LockHeldKeepsOwner | celery_singleton/backends/base.py:6-16 | locking a held key reports failure and keeps the holder |
| BackendContract.UnlockThenGet | celery_singleton/backends/base.py:19-36 | after unlock `get` returns None and every other key is unchanged |
| BackendContract.ClearThenGet | celery_singleton/backends/base.py:39-46 | after clear no key under the prefix is left and every other key keeps its owner |
| BackendContract.ClearAbsorbsUnlock | celery_singleton/backends/base.py:19-46 | unlocking a key under the prefix before clearing leaves the same store as clearing alone |
| RedisStore.RedisBackend.constructor | celery_singleton/backends/redis.py:5-9 | the backend starts on the server's current store |
| RedisStore.RedisBackend.Lock | celery_singleton/backends/redis.py:11-15 | SETNX: acquired exactly when the key was absent; then the key holds the task id, otherwise the store is unchanged |
| RedisStore.RedisBackend.Unlock | celery_singleton/backends/redis.py:17-18 | DEL: the key is removed and nothing else changes |
| RedisStore.RedisBackend.Get | celery_singleton/backends/redis.py:20-26 | GET: the stored value, or None when the key is absent, with the store unchanged |
| RedisStore.RedisBackend.Clear | celery_singleton/backends/redis.py:28-37 | over a complete SCAN iteration, the loop stops at cursor 0 and leaves exactly the keys not under the prefix, even when the matches span several pages |
| RedisStore.ReturnedKeysMatch | celery_singleton/backends/redis.py:29-31 | every key returned by a `MATCH prefix*` scan is under the prefix |
| Config.Get | celery_singleton/config.py:10 | `conf.get(name, default)`: the stored value (even a stored None), and the default only when the name is absent |
| Config.KeyPrefix | celery_singleton/config.py:8-10 | the configured `singleton_key_prefix`, else `"SINGLETONLOCK_"` |
| Config.BackendUrl | celery_singleton/config.py:38-46 | AttributeError exactly when no `singleton_backend_url` is set and `result_backend` is a true value that is not a str; without an explicit URL, a str URL other than `broker_url` starts with `redis://` |
| Config.BackendUrlPrecedence | celery_singleton/config.py:38-46 | a non-None `singleton_backend_url` wins; else a `result_backend` starting with `redis://`; else `broker_url`, also when `result_backend` is a false value of any type |
| Config.BackendUrlSource | celery_singleton/config.py:38-46 | the URL is always one of the three settings, a `result_backend` only when it is a Redis URL, and the only error is a true non-str `result_backend` |
| Config.Split | celery_singleton/config.py:18 | `str.split(".")` always yields at least one part |
| Config.SplitNoDot | celery_singleton/config.py:18 | a string without a dot splits into itself |
| Config.SplitAtDot | celery_singleton/config.py:18 | splitting `a + "." + b` splits `a` and `b` separately |
| Config.JoinSplit | celery_singleton/config.py:18-19 | `".".join(s.split("."))` is `s` |
| Config.ClassPathSplitsAtLastDot | celery_singleton/config.py:17-19 | a class path splits at its last dot into module part and class name |
| Config.ClassPathWithoutDot | celery_singleton/config.py:17-19 | a path without a dot has an empty module part and is all class name |
| Config.BackendClass | celery_singleton/config.py:12-22 | a str setting, or the default path when unset, is split at its last dot into the module to import and the class to take from it; a setting that is not a str is returned as given |
| Config.DefaultBackendIsRedis | celery_singleton/config.py:14-21 | by default `RedisBackend` is loaded from `celery_singleton.backends.redis` |
| Config.RaiseOnDuplicate | celery_singleton/config.py:48-50 | the configured value, or None when unset |
| Config.LockExpiry | celery_singleton/config.py:52-54 | the configured value, or None when unset |
| InspectCelery.Subscript | celery_singleton/inspect_celery.py:29 | `task['id']` succeeds only on a dict holding the key; a dict without it raises KeyError, anything else TypeError |
| InspectCelery.Iterate | celery_singleton/inspect_celery.py:28 | iterating a list yields its items, a dict its keys, a str its characters; any other value raises TypeError |
| InspectCelery.MakeTask | celery_singleton/inspect_celery.py:30 | a task is built exactly when the record has `'id'`, `'name'`, `'args'` and `'kwargs'`, and then carries those four values |
| InspectCelery.MakeTaskFailsAtFirstMissing | celery_singleton/inspect_celery.py:30 | when a field is missing, the error is the one raised by the first of the subscripts `'id'`, `'name'`, `'args'`, `'kwargs'` to fail, in that order |
| InspectCelery.Check | celery_singleton/inspect_celery.py:28-30 | an entry matches only when its record's id is the one sought, and the task is then copied from that record; it is skipped exactly when its id can be read and differs |
| InspectCelery.SearchList | celery_singleton/inspect_celery.py:28-30 | the first entry that matches or raises decides; None when every entry is skipped |
| InspectCelery.SearchWorkers | celery_singleton/inspect_celery.py:26-31 | the first worker whose search matches or raises decides, in reply order; None when none does |
| InspectCelery.GetTask | celery_singleton/inspect_celery.py:26-31 | a missing reply raises AttributeError, as `.items()` on None does; a task returned was built from a record whose `'id'` is the id sought |
| InspectCelery.GetScheduledTask | celery_singleton/inspect_celery.py:33-39 | a missing reply raises AttributeError; a task returned was built from an entry's `'request'` whose `'id'` is the id sought |
| InspectCelery.GetTaskById | celery_singleton/inspect_celery.py:10-24 | a task returned always carries the id sought |
| InspectCelery.ScheduledMatchesRequest | celery_singleton/inspect_celery.py:33-39 | a scheduled entry is judged by its nested `'request'`, exactly as that record would be as an active entry |
| InspectCelery.ScheduledWithoutRequestRaises | celery_singleton/inspect_celery.py:36 | a scheduled entry without `'request'` raises, whatever its own id |
| InspectCelery.SearchWorkersFlattens | celery_singleton/inspect_celery.py:26-31 | the search returns the first match in worker order, then list order |
| InspectCelery.GetTaskByIdOrder | celery_singleton/inspect_celery.py:10-21 | active tasks are searched first, then reserved, then scheduled, and the first match is returned |
| InspectCelery.FailureEndsLookup | celery_singleton/inspect_celery.py:10-24 | an exception or a missing reply in the active search, in the reserved search after an empty active one, or in the scheduled search after two empty ones, ends the lookup with None instead of raising |
| InspectCelery.NoMatchNone | celery_singleton/inspect_celery.py:26-31 | when every record has another id, the search finds nothing |
| InspectCelery.PingScan | celery_singleton/inspect_celery.py:45-51 | the scan answers True only when some reply has a true `'ok'` |
| InspectCelery.AreWorkersActive | celery_singleton/inspect_celery.py:41-51 | true exactly when there is a ping reply in which a reply with a true `'ok'` comes before any reply lacking `'ok'` |
| InspectCelery.PingScanFindsOk | celery_singleton/inspect_celery.py:45-51 | workers are active exactly when a reply with a true `'ok'` comes before any reply lacking `'ok'` |
| InspectCelery.NoPingNoWorkers | celery_singleton/inspect_celery.py:42-44 | a missing or empty ping reply means no worker is active |
| Singleton.RaisePolicy | celery_singleton/singleton.py:28-32 | the task's `raise_on_duplicate` when not None, else the app's setting when true, else False |
| Singleton.RaisePolicyDefault | celery_singleton/singleton.py:28-32 | with neither the task nor the app setting it, duplicates do not raise |
| Singleton.Expiry | celery_singleton/singleton.py:48-53 | the task's `lock_expiry` when not None, else the app's |
| Singleton.SelectFailure | celery_singleton/singleton.py:72 | the selection fails exactly when some name is not a bound parameter, with KeyError for the first such name |
| Singleton.SelectSuccess | celery_singleton/singleton.py:72 | a successful selection holds every named parameter exactly once, with its bound value |
| Singleton.SelectOnlyNamed | celery_singleton/singleton.py:72 | only the named parameters' values influence the selection |
| Singleton.Select | celery_singleton/singleton.py:72 | a successful selection extends the entries already selected; a failure is a KeyError and needs some name to look up |
| Singleton.KeyArguments | celery_singleton/singleton.py:59-76 | without `unique_on`, the call's own args and kwargs; with it, `[]` and keyword arguments with distinct keys all named in `unique_on`; the only errors are the binding TypeError and a KeyError |
| Singleton.TaskLockKey | celery_singleton/singleton.py:59-82 | a computed key always starts with the configured prefix, and a non-str prefix fails |
| Singleton.KeyWithoutSelector | celery_singleton/singleton.py:74-82 | without `unique_on` every argument and keyword argument goes into the key |
| Singleton.OneNameIsList | celery_singleton/singleton.py:64-65 | a `unique_on` str acts as the one-element list |
| Singleton.EmptySelectorNameOnly | celery_singleton/singleton.py:66-67 | a `unique_on` of only empty names gives the key of the task name alone |
| Singleton.SelectorKeyFails | celery_singleton/singleton.py:68-73 | with a selector naming some parameter, the key cannot be formed exactly when some name is not a parameter of the task |
| Singleton.SelectorKey | celery_singleton/singleton.py:68-73 | with a selector naming some parameter, positional args are `[]` and the kwargs are exactly the named parameters, each once, with their bound values |
| Singleton.SelectorIgnoresOtherArguments | celery_singleton/singleton.py:68-73 | calls that agree on the selected parameters share a key |
| Singleton.UnboundCallFails | celery_singleton/singleton.py:69-70 | a call that does not fit `run`'s signature fails with TypeError |
| Singleton.SubmittedArgumentsSameKey | celery_singleton/singleton.py:150-152 | the key released from the submitted arguments is the key taken at submission |
| Singleton.Race | celery_singleton/singleton.py:115-125 | the acquisition loop ends either holding the lock for the submitted id, or with a non-empty owner holding it at the lookup |
| Singleton.RaceUncontended | celery_singleton/singleton.py:115-125 | alone, a submission takes a free lock, or reports the holder of a held one without changing the store |
| Singleton.RaceAfterRelease | celery_singleton/singleton.py:119-124 | when the holder releases between the failed lock and the lookup, the loop goes round and takes the lock |
| Singleton.RepeatedSubmissionsShareFirstId | celery_singleton/singleton.py:115-125 | repeated identical submissions: the first takes the lock and every later one reports the first id |
| Singleton.ChallengeUnlocksOnlyOrphans | celery_singleton/singleton.py:139-148 | the challenge unlocks exactly when the lock has an owner, some worker is active and no worker knows the owner; otherwise the store is unchanged |
| Singleton.Challenge | celery_singleton/singleton.py:139-148 | the store is left as it is or loses only the lock's key, and it is never changed when no worker answers the ping |
| Singleton.OnDuplicate | celery_singleton/singleton.py:157-163 | raises DuplicateTaskError with the owner's id exactly when the raise policy is true, otherwise returns the owner's handle |
| Singleton.SubmittedId | celery_singleton/singleton.py:97 | `task_id or uuid()`: a non-empty given id is kept, otherwise the fresh id is used, so the id is never empty when the fresh one is not |
| Singleton.Settle | celery_singleton/singleton.py:115-137 | queued exactly when the loop acquired the lock and the send succeeded; a failed send after acquiring frees the key; otherwise the store is the one the loop left; an owner found gives Attached or Duplicate with that owner's id |
| Singleton.DispatchOn | celery_singleton/singleton.py:112-137 | after the optional challenge, the loop and what follows, every stored owner is still a non-empty id and a queued submission carries the submitted id |
| Singleton.Dispatch | celery_singleton/singleton.py:84-137 | every stored owner stays a non-empty id; the outcome is a key failure exactly when the key cannot be computed, and then the store is unchanged; a queued submission carries the submitted id |
| Singleton.DispatchOutcomes | celery_singleton/singleton.py:84-137 | a submission is queued under its own id and holding the lock, or reports a holder that holds it, or failed to send and left the lock free, or failed on the key and changed nothing |
| Singleton.SecondSubmissionFindsFirst | celery_singleton/singleton.py:115-125 | a first submission is queued; an identical second one attaches to it or raises with its id |
| Singleton.ResubmitAfterRelease | celery_singleton/singleton.py:150-155 | after the lock is released, the same call is queued again under its new id |
| Singleton.Broker.Send | celery_singleton/singleton.py:131-133 | the message is sent, or the broker's error is raised and nothing is sent |
| Singleton.Singleton.AquireLock | celery_singleton/singleton.py:48-54 | the backend lock, under the lock contract |
| Singleton.Singleton.GetExistingTaskId | celery_singleton/singleton.py:56-57 | the current owner of the key |
| Singleton.Singleton.Unlock | celery_singleton/singleton.py:154-155 | the backend unlock, under the unlock contract |
| Singleton.Singleton.LockAndRun | celery_singleton/singleton.py:127-137 | a held lock gives None and no message; a free one is taken and the call sent; a send that raises gives the lock back and passes the error on |
| Singleton.Singleton.ChallengeLock | celery_singleton/singleton.py:139-148 | leaves the store the challenge function describes |
| Singleton.Singleton.AttemptRound | celery_singleton/singleton.py:119-124 | one pass of the loop advances the acquisition model by one round, or ends it |
| Singleton.Singleton.Acquire | celery_singleton/singleton.py:115-125 | the loop's outcome and store are those of the acquisition model followed by the duplicate policy or the broker's answer |
| Singleton.Singleton.ApplyAsync | celery_singleton/singleton.py:84-125 | outcome and new store are `Dispatch` of the submitted id (`task_id or uuid()`); a message is sent exactly when the call is queued |
| Singleton.Singleton.ReleaseLock | celery_singleton/singleton.py:150-152 | unlocks the key of the given call, or passes on the key error and changes nothing |
| Singleton.Singleton.OnSuccess | celery_singleton/singleton.py:168-169 | a finished task releases its call's key |
| Singleton.Singleton.OnFailure | celery_singleton/singleton.py:165-166 | a failed task releases its call's key as well |
| Singleton.ClearLocks | celery_singleton/singleton.py:12-15 | removes exactly the locks under the configured prefix; a non-str prefix fails and changes nothing |

## Left out

- md5 is a parameter `md5: string -> HexDigest`: any function giving 32 lower-case hex digits. Distinctness of keys is therefore proved only of the hashed text, or under a no-collision premise.
- `json_encoder_class` (`config.py:24-32`, `util.py:12-13`) and custom encoders are not modelled. Only the standard encoder is.
- JSON floats are not modelled. Task arguments and inspector fields are null, bool, int, str, list or dict. The inspector's float fields such as `time_start` are never read by the lookup.
- The serialiser's default `ensure_ascii=True` is modelled: non-ASCII characters become `\uXXXX` escapes, with surrogate pairs for code points above U+FFFF.
- Dafny `char` is a Unicode scalar value, so the lone surrogates that a Python str can hold are outside the model.
- `inspect.signature(self.run).bind(...)` and `apply_defaults()` are a function `bind` held by the task definition. It gives the bound parameters in signature order, or None when the call does not fit.
- Celery's `BaseTask.apply_async` is the `Broker` class. Its send either appends a message or raises the scripted error.
  - `AsyncResult` handles are the task ids inside `Outcome`.
  - `uuid()` is the `freshId` parameter.
- Worker signals that call `on_success` and `on_failure` are not modelled. Those handlers are methods the environment may call.
- `app.control.inspect()` is not modelled: its replies are the `Cluster` value.
  - A reply call that raises (`.active()`, `.reserved()` or `.scheduled()`, inside the `try` opened at `inspect_celery.py:12`) is caught by the source and ends the lookup with None; the model covers this through the failure-to-None path of `GetTaskById`, of which a missing reply is one case.
  - Only `inspect()` itself (`inspect_celery.py:11` and `:42`) and `ping()` (`:42`) raising are not modelled: they sit outside any `try`.
  - A missing `celery_app` is not modelled either.
- Time is left out. The lock expiry is computed and passed to `Lock`, which ignores it. Locks never expire by themselves.
- Concurrent producers are a script of moves on the same store (`Round`, `Interleave`). Each script has a move before each lock attempt and one before each owner lookup. After the script ends, no other producer acts, so every modelled run of the acquisition loop terminates.
- Singleton.Singleton.ApplyAsync: requires every stored owner and every scripted owner to be a non-empty id. With an empty id stored, the source's loop would spin forever. The coordinator itself never stores one, because `task_id or uuid()` replaces an empty id.
- Singleton.Race: requires the same non-empty owners, for the same reason.
- RedisStore.RedisBackend.Clear: requires the SCAN replies to be a complete iteration as Redis guarantees it. Keys matching the pattern but added during the iteration may or may not be cleared. Redis glob metacharacters in the prefix (`*`, `?`, `[`) are treated as plain characters.
- The Redis client, `Redis.from_url`, `decode_responses` and the connection kwargs (`redis.py:5-9`) are not modelled. The backend is its in-memory store.
- `get_backend` (`backends/__init__.py`) is not modelled: its global backend cache, its dynamic class construction and its read of the undefined `broker_transport_options`. `Config.backend_kwargs` (`config.py:34-36`) is left out with it.
- `import_module` and `getattr` (`config.py:20-21`) are not modelled. `Config.BackendClass` stops at the module and class names it would import.
- The `singleton_config` and `singleton_backend` caches (`singleton.py:34-46`) are not modelled. The `Singleton` class holds its configuration and backend as constants.
- `exceptions.py`: `DuplicateTaskError` is the `Duplicate(taskId)` outcome, and the re-raised broker error is `SubmitFailed`.
- Dict keys in task arguments are modelled as str only. Python's `json.dumps(..., sort_keys=True)` writes int, bool and None keys as strings, so `{1: "a"}` and `{"1": "a"}` give the same text and the same lock key; it sorts by the original keys (`{10: ..., 9: ...}` is written with `"9"` first), and mixed str and int keys raise TypeError. None of this is modelled, and `LockKey.HashInputIdentifiesCall` and `LockKey.KeyIdentifiesCall` hold only over str keys.
- Python dicts hold each key once. Inspector replies and bound arguments are key/value sequences, and indexing takes the first entry with the key. Results about keyword argument order require distinct keys.
- Setting values in the app configuration are None, bool, int, str or a class object. Other Python values are not modelled.
