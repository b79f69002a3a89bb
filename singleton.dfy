/**
 * The task base class that keeps at most one queued or running copy of a
 * task call (celery_singleton/singleton.py).  Submitting a call first takes
 * a lock named after the call in the backend; the lock holds the id of the
 * task that owns it and is released when that task ends.  A second
 * submission of the same call finds the lock taken and either attaches to
 * the running task or raises.
 *
 * Other producers share the store.  Their moves between two backend calls of
 * a submission are given as a script of rounds; after the script the store
 * is left alone.
 */
module Singleton {
  import opened Wrappers
  import opened Py
  import opened KeyOrder
  import opened Json
  import LockKey
  import opened BackendContract
  import opened RedisStore
  import Config
  import InspectCelery

  // ----- the task's settings -----

  /** The `unique_on` attribute: unset, a single name, or a list of names. */
  datatype UniqueOn = NoSelector | OneName(name: string) | Names(names: seq<string>)

  /** A task class deriving from Singleton.  `bind` stands for binding a
      call's arguments to the signature of `run` and applying the defaults:
      it gives the parameter names and values in signature order, or None
      when the call does not fit the signature. */
  datatype TaskDef = TaskDef(
    name: string,
    uniqueOn: UniqueOn,
    raiseOnDuplicate: Config.Setting,
    lockExpiry: Config.Setting,
    challengeLockOnStartup: bool,
    bind: (seq<Json>, seq<Entry<Json>>) -> Option<seq<Entry<Json>>>)

  /** `_raise_on_duplicate`: the task's own setting unless it is None, else
      the app's setting, else False. */
  function RaisePolicy(def: TaskDef, conf: Config.Conf): (v: Config.Setting)
    ensures def.raiseOnDuplicate != Config.NoneValue ==> v == def.raiseOnDuplicate
    ensures def.raiseOnDuplicate == Config.NoneValue && Config.Truthy(Config.RaiseOnDuplicate(conf)) ==>
              v == Config.RaiseOnDuplicate(conf)
    ensures def.raiseOnDuplicate == Config.NoneValue && !Config.Truthy(Config.RaiseOnDuplicate(conf)) ==>
              v == Config.Flag(false)
  {
    if def.raiseOnDuplicate != Config.NoneValue then def.raiseOnDuplicate
    else if Config.Truthy(Config.RaiseOnDuplicate(conf)) then Config.RaiseOnDuplicate(conf)
    else Config.Flag(false)
  }

  /** Raising on duplicates is off unless the task or the app turns it on. */
  lemma RaisePolicyDefault(def: TaskDef, conf: Config.Conf)
    requires def.raiseOnDuplicate == Config.NoneValue && "singleton_raise_on_duplicate" !in conf
    ensures RaisePolicy(def, conf) == Config.Flag(false)
  {
  }

  /** The expiry `aquire_lock` passes to the backend: the task's own unless
      it is None, else the app's. */
  function Expiry(def: TaskDef, conf: Config.Conf): (v: Config.Setting)
    ensures def.lockExpiry != Config.NoneValue ==> v == def.lockExpiry
    ensures def.lockExpiry == Config.NoneValue ==> v == Config.LockExpiry(conf)
  {
    if def.lockExpiry != Config.NoneValue then def.lockExpiry else Config.LockExpiry(conf)
  }

  // ----- the lock key of a call -----

  /** `{key: bound.arguments[key] for key in unique_on}`: the named bound
      arguments, each once, in the order first named. */
  function Select(names: seq<string>, bound: seq<Entry<Json>>, acc: seq<Entry<Json>>): (r: Result<seq<Entry<Json>>, PyError>)
    ensures r.Success? ==> |acc| <= |r.value| && r.value[..|acc|] == acc
    ensures r.Failure? ==> names != [] && r.error.KeyError?
    decreases names
  {
    if names == [] then Success(acc)
    else
      match Lookup(bound, names[0])
      case None => Failure(KeyError(names[0]))
      case Some(v) =>
        if names[0] in Keys(acc) then Select(names[1..], bound, acc)
        else Select(names[1..], bound, acc + [Entry(names[0], v)])
  }

  /** The selection fails exactly when some name is not a parameter, and
      then with a KeyError for the first such name. */
  lemma {:induction false} SelectFailure(names: seq<string>, bound: seq<Entry<Json>>, acc: seq<Entry<Json>>)
    ensures Select(names, bound, acc).Failure? <==> exists i :: 0 <= i < |names| && Lookup(bound, names[i]).None?
    ensures Select(names, bound, acc).Failure? ==>
      exists i :: 0 <= i < |names| && Lookup(bound, names[i]).None? &&
        Select(names, bound, acc).error == KeyError(names[i]) &&
        forall j :: 0 <= j < i ==> Lookup(bound, names[j]).Some?
    decreases names
  {
    if names != [] {
      var n := names[0];
      var tail := names[1..];
      assert forall i :: 0 <= i < |tail| ==> tail[i] == names[i + 1];
      match Lookup(bound, n)
      case None =>
      case Some(v) =>
        var next := if n in Keys(acc) then acc else acc + [Entry(n, v)];
        SelectFailure(tail, bound, next);
        if Select(names, bound, acc).Failure? {
          var i :| 0 <= i < |tail| && Lookup(bound, tail[i]).None? &&
            Select(tail, bound, next).error == KeyError(tail[i]) &&
            forall j :: 0 <= j < i ==> Lookup(bound, tail[j]).Some?;
          assert Lookup(bound, names[i + 1]).None?;
        }
        if exists i :: 0 <= i < |names| && Lookup(bound, names[i]).None? {
          var i :| 0 <= i < |names| && Lookup(bound, names[i]).None?;
          assert i > 0 && Lookup(bound, tail[i - 1]).None?;
        }
    }
  }

  /** A successful selection holds each named parameter once, with its bound
      value, after the entries already selected. */
  lemma {:induction false} SelectSuccess(names: seq<string>, bound: seq<Entry<Json>>, acc: seq<Entry<Json>>)
    requires DistinctKeys(acc)
    requires forall i :: 0 <= i < |acc| ==> Lookup(bound, acc[i].key) == Some(acc[i].value)
    ensures Select(names, bound, acc).Success? ==>
      var r := Select(names, bound, acc).value;
      DistinctKeys(r) &&
      (forall k :: k in Keys(r) <==> k in Keys(acc) || k in names) &&
      (forall i :: 0 <= i < |r| ==> Lookup(bound, r[i].key) == Some(r[i].value))
    decreases names
  {
    if names != [] {
      var n := names[0];
      assert forall k :: k in names <==> k == n || k in names[1..];
      match Lookup(bound, n)
      case None =>
      case Some(v) =>
        var next := if n in Keys(acc) then acc else acc + [Entry(n, v)];
        assert Keys(next) == if n in Keys(acc) then Keys(acc) else Keys(acc) + [n];
        assert DistinctKeys(next) by {
          if n !in Keys(acc) {
            forall i | 0 <= i < |acc| ensures acc[i].key != n {
              assert Keys(acc)[i] == acc[i].key;
            }
          }
        }
        SelectSuccess(names[1..], bound, next);
    }
  }

  /** Two bindings that agree on the named parameters select the same
      arguments. */
  lemma {:induction false} SelectOnlyNamed(names: seq<string>, b1: seq<Entry<Json>>, b2: seq<Entry<Json>>, acc: seq<Entry<Json>>)
    requires forall n :: n in names ==> Lookup(b1, n) == Lookup(b2, n)
    ensures Select(names, b1, acc) == Select(names, b2, acc)
    decreases names
  {
    if names != [] {
      assert names[0] in names;
      assert forall n :: n in names[1..] ==> n in names;
      var v := Lookup(b1, names[0]);
      if v.Some? {
        SelectOnlyNamed(names[1..], b1, b2, if names[0] in Keys(acc) then acc else acc + [Entry(names[0], v.value)]);
      }
    }
  }

  /** `any(unique_on)`: some name is not empty. */
  predicate AnyNamed(names: seq<string>)
  {
    exists i :: 0 <= i < |names| && names[i] != ""
  }

  function SelectorNames(u: UniqueOn): seq<string>
    requires !u.NoSelector?
  {
    if u.OneName? then [u.name] else u.names
  }

  /** The arguments and keyword arguments that go into the key, after
      `task_args or []` and `task_kwargs or {}`. */
  function KeyArguments(def: TaskDef, args: seq<Json>, kwargs: seq<Entry<Json>>): (r: Result<(seq<Json>, seq<Entry<Json>>), PyError>)
    ensures def.uniqueOn.NoSelector? ==> r == Success((args, kwargs))
    ensures !def.uniqueOn.NoSelector? && r.Success? ==>
      r.value.0 == [] && DistinctKeys(r.value.1) &&
      forall k :: k in Keys(r.value.1) ==> k in SelectorNames(def.uniqueOn)
    ensures r.Failure? ==> r.error == TypeError || r.error.KeyError?
  {
    if def.uniqueOn.NoSelector? then Success((args, kwargs))
    else
      var names := SelectorNames(def.uniqueOn);
      if !AnyNamed(names) then Success(([], []))
      else
        match def.bind(args, kwargs)
        case None => Failure(TypeError)
        case Some(bound) =>
          SelectSuccess(names, bound, []);
          match Select(names, bound, [])
          case Failure(e) => Failure(e)
          case Success(selected) => Success(([], selected))
  }

  /** `Singleton.generate_lock`.  A key prefix setting that is not a str
      cannot be concatenated with the digest. */
  function TaskLockKey(def: TaskDef, conf: Config.Conf, md5: string -> LockKey.HexDigest,
                       args: Option<seq<Json>>, kwargs: Option<seq<Entry<Json>>>): (r: Result<string, PyError>)
    ensures r.Success? ==> Config.KeyPrefix(conf).Text? && StartsWith(r.value, Config.KeyPrefix(conf).s)
  {
    match KeyArguments(def, LockKey.ArgsOrEmpty(args), LockKey.KwargsOrEmpty(kwargs))
    case Failure(e) => Failure(e)
    case Success((a, k)) =>
      var prefix := Config.KeyPrefix(conf);
      if !prefix.Text? then Failure(TypeError)
      else Success(LockKey.GenerateLock(def.name, Some(a), Some(k), prefix.s, md5))
  }

  /** Without `unique_on` the key covers every argument, as the key
      generator computes it. */
  lemma KeyWithoutSelector(def: TaskDef, conf: Config.Conf, md5: string -> LockKey.HexDigest,
                           args: Option<seq<Json>>, kwargs: Option<seq<Entry<Json>>>)
    requires def.uniqueOn.NoSelector? && Config.KeyPrefix(conf).Text?
    ensures TaskLockKey(def, conf, md5, args, kwargs) ==
      Success(LockKey.GenerateLock(def.name, args, kwargs, Config.KeyPrefix(conf).s, md5))
  {
  }

  /** A single name is the list holding that name. */
  lemma OneNameIsList(def: TaskDef, conf: Config.Conf, md5: string -> LockKey.HexDigest,
                      args: Option<seq<Json>>, kwargs: Option<seq<Entry<Json>>>, n: string)
    ensures TaskLockKey(def.(uniqueOn := OneName(n)), conf, md5, args, kwargs) ==
            TaskLockKey(def.(uniqueOn := Names([n])), conf, md5, args, kwargs)
  {
    var one, list := def.(uniqueOn := OneName(n)), def.(uniqueOn := Names([n]));
    var a, k := LockKey.ArgsOrEmpty(args), LockKey.KwargsOrEmpty(kwargs);
    assert SelectorNames(one.uniqueOn) == SelectorNames(list.uniqueOn);
    assert KeyArguments(one, a, k) == KeyArguments(list, a, k);
  }

  /** With a selector whose names are all empty the key depends on the task
      name only: every call gets the key of the call without arguments. */
  lemma EmptySelectorNameOnly(def: TaskDef, conf: Config.Conf, md5: string -> LockKey.HexDigest,
                              args: Option<seq<Json>>, kwargs: Option<seq<Entry<Json>>>)
    requires !def.uniqueOn.NoSelector? && !AnyNamed(SelectorNames(def.uniqueOn))
    requires Config.KeyPrefix(conf).Text?
    ensures TaskLockKey(def, conf, md5, args, kwargs) ==
      Success(LockKey.GenerateLock(def.name, None, None, Config.KeyPrefix(conf).s, md5))
  {
  }

  /** With a selector naming some parameter, the key cannot be formed
      exactly when some name is not a parameter of the task. */
  lemma SelectorKeyFails(def: TaskDef, conf: Config.Conf, md5: string -> LockKey.HexDigest,
                         args: Option<seq<Json>>, kwargs: Option<seq<Entry<Json>>>)
    requires !def.uniqueOn.NoSelector? && AnyNamed(SelectorNames(def.uniqueOn))
    requires Config.KeyPrefix(conf).Text?
    requires def.bind(LockKey.ArgsOrEmpty(args), LockKey.KwargsOrEmpty(kwargs)).Some?
    ensures var names := SelectorNames(def.uniqueOn);
      var bound := def.bind(LockKey.ArgsOrEmpty(args), LockKey.KwargsOrEmpty(kwargs)).value;
      TaskLockKey(def, conf, md5, args, kwargs).Failure? <==> exists i :: 0 <= i < |names| && Lookup(bound, names[i]).None?
  {
    var names := SelectorNames(def.uniqueOn);
    var bound := def.bind(LockKey.ArgsOrEmpty(args), LockKey.KwargsOrEmpty(kwargs)).value;
    SelectFailure(names, bound, []);
    SelectedKey(def, conf, md5, args, kwargs);
  }

  /** `selected` holds each of `names` once, with its bound value, and
      nothing else. */
  ghost predicate SelectsNamed(selected: seq<Entry<Json>>, names: seq<string>, bound: seq<Entry<Json>>)
  {
    DistinctKeys(selected) &&
    (forall k :: k in Keys(selected) <==> k in names) &&
    (forall i :: 0 <= i < |selected| ==> Lookup(bound, selected[i].key) == Some(selected[i].value))
  }

  /** With a selector naming some parameter, positional arguments never
      reach the key, and the keyword arguments are exactly the named
      parameters with their bound values. */
  lemma SelectorKey(def: TaskDef, conf: Config.Conf, md5: string -> LockKey.HexDigest,
                    args: Option<seq<Json>>, kwargs: Option<seq<Entry<Json>>>)
    requires !def.uniqueOn.NoSelector? && AnyNamed(SelectorNames(def.uniqueOn))
    requires Config.KeyPrefix(conf).Text?
    requires def.bind(LockKey.ArgsOrEmpty(args), LockKey.KwargsOrEmpty(kwargs)).Some?
    ensures var names := SelectorNames(def.uniqueOn);
      var bound := def.bind(LockKey.ArgsOrEmpty(args), LockKey.KwargsOrEmpty(kwargs)).value;
      var r := TaskLockKey(def, conf, md5, args, kwargs);
      r.Success? ==> exists selected: seq<Entry<Json>> ::
         SelectsNamed(selected, names, bound) &&
         r.value == LockKey.GenerateLock(def.name, Some([]), Some(selected), Config.KeyPrefix(conf).s, md5)
  {
    var names := SelectorNames(def.uniqueOn);
    var bound := def.bind(LockKey.ArgsOrEmpty(args), LockKey.KwargsOrEmpty(kwargs)).value;
    SelectSuccess(names, bound, []);
    SelectedKey(def, conf, md5, args, kwargs);
    var selection := Select(names, bound, []);
    if selection.Success? {
      var selected := selection.value;
      assert forall k :: k in Keys(selected) <==> k in names;
      assert SelectsNamed(selected, names, bound);
      assert TaskLockKey(def, conf, md5, args, kwargs).value ==
        LockKey.GenerateLock(def.name, Some([]), Some(selected), Config.KeyPrefix(conf).s, md5);
    } else {
      assert TaskLockKey(def, conf, md5, args, kwargs).Failure?;
    }
  }

  /** With a selector naming some parameter, the key is that of the
      selected keyword arguments alone. */
  lemma SelectedKey(def: TaskDef, conf: Config.Conf, md5: string -> LockKey.HexDigest,
                    args: Option<seq<Json>>, kwargs: Option<seq<Entry<Json>>>)
    requires !def.uniqueOn.NoSelector? && AnyNamed(SelectorNames(def.uniqueOn))
    requires Config.KeyPrefix(conf).Text?
    requires def.bind(LockKey.ArgsOrEmpty(args), LockKey.KwargsOrEmpty(kwargs)).Some?
    ensures var selection := Select(SelectorNames(def.uniqueOn),
                                    def.bind(LockKey.ArgsOrEmpty(args), LockKey.KwargsOrEmpty(kwargs)).value, []);
      var r := TaskLockKey(def, conf, md5, args, kwargs);
      (r.Failure? <==> selection.Failure?) &&
      (r.Success? ==> r.value == LockKey.GenerateLock(def.name, Some([]), Some(selection.value), Config.KeyPrefix(conf).s, md5))
  {
  }

  /** Calls whose bound values agree on the selected parameters share a
      key, whatever their other arguments. */
  lemma SelectorIgnoresOtherArguments(def: TaskDef, conf: Config.Conf, md5: string -> LockKey.HexDigest,
                                      args1: Option<seq<Json>>, kwargs1: Option<seq<Entry<Json>>>,
                                      args2: Option<seq<Json>>, kwargs2: Option<seq<Entry<Json>>>)
    requires !def.uniqueOn.NoSelector? && AnyNamed(SelectorNames(def.uniqueOn))
    requires def.bind(LockKey.ArgsOrEmpty(args1), LockKey.KwargsOrEmpty(kwargs1)).Some?
    requires def.bind(LockKey.ArgsOrEmpty(args2), LockKey.KwargsOrEmpty(kwargs2)).Some?
    requires forall n :: n in SelectorNames(def.uniqueOn) ==>
      Lookup(def.bind(LockKey.ArgsOrEmpty(args1), LockKey.KwargsOrEmpty(kwargs1)).value, n) ==
      Lookup(def.bind(LockKey.ArgsOrEmpty(args2), LockKey.KwargsOrEmpty(kwargs2)).value, n)
    ensures TaskLockKey(def, conf, md5, args1, kwargs1) == TaskLockKey(def, conf, md5, args2, kwargs2)
  {
    SelectOnlyNamed(SelectorNames(def.uniqueOn),
      def.bind(LockKey.ArgsOrEmpty(args1), LockKey.KwargsOrEmpty(kwargs1)).value,
      def.bind(LockKey.ArgsOrEmpty(args2), LockKey.KwargsOrEmpty(kwargs2)).value, []);
  }

  /** A call that does not fit the signature of `run` fails with TypeError
      when a selector names some parameter. */
  lemma UnboundCallFails(def: TaskDef, conf: Config.Conf, md5: string -> LockKey.HexDigest,
                         args: Option<seq<Json>>, kwargs: Option<seq<Entry<Json>>>)
    requires !def.uniqueOn.NoSelector? && AnyNamed(SelectorNames(def.uniqueOn))
    requires def.bind(LockKey.ArgsOrEmpty(args), LockKey.KwargsOrEmpty(kwargs)).None?
    ensures TaskLockKey(def, conf, md5, args, kwargs) == Failure(TypeError)
  {
  }

  /** The key computed from the arguments as they were submitted (`args or
      []`, `kwargs or {}`) is the key computed from the arguments as given,
      so the key released by the task's end handlers is the key taken at
      submission. */
  lemma SubmittedArgumentsSameKey(def: TaskDef, conf: Config.Conf, md5: string -> LockKey.HexDigest,
                                  args: Option<seq<Json>>, kwargs: Option<seq<Entry<Json>>>)
    ensures TaskLockKey(def, conf, md5, Some(LockKey.ArgsOrEmpty(args)), Some(LockKey.KwargsOrEmpty(kwargs))) ==
            TaskLockKey(def, conf, md5, args, kwargs)
  {
  }

  // ----- what a submission does to the store -----

  /** What another producer does to the lock between two backend calls. */
  datatype Interleaving = Idle | Acquire(owner: string) | Release

  /** The moves before the lock attempt and before the owner lookup of one
      round of the acquisition loop. */
  datatype Round = Round(beforeLock: Interleaving, beforeGet: Interleaving)

  /** The move as the store sees it: another producer's `lock` or
      `unlock` of the same key. */
  function Interfere(store: Store, key: string, act: Interleaving): Store
  {
    match act
    case Idle => store
    case Acquire(owner) => if key in store then store else store[key := owner]
    case Release => store - {key}
  }

  function RoundAt(script: seq<Round>, k: nat): Round
  {
    if k < |script| then script[k] else Round(Idle, Idle)
  }

  /** Every lock in the store names its owner: no task id is empty. */
  predicate OwnersNamed(store: Store)
  {
    forall k :: k in store ==> store[k] != ""
  }

  predicate ScriptNamed(script: seq<Round>)
  {
    forall i :: 0 <= i < |script| ==>
      (script[i].beforeLock.Acquire? ==> script[i].beforeLock.owner != "") &&
      (script[i].beforeGet.Acquire? ==> script[i].beforeGet.owner != "")
  }

  /** How the acquisition loop ends: the lock is taken for the submitted id,
      or another task owns it. */
  datatype RaceEnd = Acquired | Owned(owner: string)

  /** The acquisition loop of `apply_async` from round `k` on: try the lock;
      if it is taken, look up the owner; while the owner is missing, go
      round again.  The loop ends with the lock taken, or with an owner that
      holds it at the time of the lookup. */
  function Race(store: Store, key: string, taskId: string, script: seq<Round>, k: nat): (r: (RaceEnd, Store))
    requires OwnersNamed(store) && ScriptNamed(script) && taskId != "" && k <= |script|
    ensures OwnersNamed(r.1)
    ensures r.0 == Acquired ==> key in r.1 && r.1[key] == taskId
    ensures r.0.Owned? ==> r.0.owner != "" && key in r.1 && r.1[key] == r.0.owner
    decreases |script| - k
  {
    var round := RoundAt(script, k);
    var s1 := Interfere(store, key, round.beforeLock);
    if key !in s1 then (Acquired, s1[key := taskId])
    else
      var s2 := Interfere(s1, key, round.beforeGet);
      if key in s2 && s2[key] != "" then (Owned(s2[key]), s2)
      else if k < |script| then Race(s2, key, taskId, script, k + 1)
      else assert false; (Acquired, s2)
  }

  /** Between producers that leave the lock alone, the loop takes the lock
      when it is free and otherwise reports its holder, leaving the store as
      it was. */
  lemma RaceUncontended(store: Store, key: string, taskId: string)
    requires OwnersNamed(store) && taskId != ""
    ensures key !in store ==> Race(store, key, taskId, [], 0) == (Acquired, store[key := taskId])
    ensures key in store ==> Race(store, key, taskId, [], 0) == (Owned(store[key]), store)
  {
  }

  /** The race the loop exists for: the lock attempt fails, the holder
      releases before the lookup so no owner is found, and the next round
      takes the lock. */
  lemma RaceAfterRelease(store: Store, key: string, taskId: string)
    requires OwnersNamed(store) && taskId != "" && key in store
    ensures Race(store, key, taskId, [Round(Idle, Release)], 0) == (Acquired, (store - {key})[key := taskId])
  {
    assert Race(store, key, taskId, [Round(Idle, Release)], 0) == Race(store - {key}, key, taskId, [Round(Idle, Release)], 1);
  }

  /** Submissions of one call in a row, with nothing else happening: the
      outcome of each. */
  function Submissions(store: Store, key: string, ids: seq<string>): (r: seq<RaceEnd>)
    requires OwnersNamed(store) && forall i :: 0 <= i < |ids| ==> ids[i] != ""
    ensures |r| == |ids|
    decreases |ids|
  {
    if ids == [] then []
    else
      var (end, s) := Race(store, key, ids[0], [], 0);
      [end] + Submissions(s, key, ids[1..])
  }

  /** Repeated identical submissions all report the first id: the first
      takes the lock and every later one finds it held by the first. */
  lemma {:induction false} RepeatedSubmissionsShareFirstId(store: Store, key: string, ids: seq<string>)
    requires OwnersNamed(store) && key !in store && |ids| > 0
    requires forall i :: 0 <= i < |ids| ==> ids[i] != ""
    ensures Submissions(store, key, ids)[0] == Acquired
    ensures forall i :: 1 <= i < |ids| ==> Submissions(store, key, ids)[i] == Owned(ids[0])
  {
    RaceUncontended(store, key, ids[0]);
    HeldLockStaysHeld(store[key := ids[0]], key, ids[1..]);
  }

  lemma {:induction false} HeldLockStaysHeld(store: Store, key: string, ids: seq<string>)
    requires OwnersNamed(store) && key in store
    requires forall i :: 0 <= i < |ids| ==> ids[i] != ""
    ensures forall i :: 0 <= i < |ids| ==> Submissions(store, key, ids)[i] == Owned(store[key])
    decreases |ids|
  {
    if ids != [] {
      RaceUncontended(store, key, ids[0]);
      HeldLockStaysHeld(store, key, ids[1..]);
      assert forall i :: 1 <= i < |ids| ==> ids[1..][i - 1] == ids[i];
    }
  }

  // ----- challenge_lock -----

  /** The replies of the remote inspection calls `challenge_lock` makes. */
  datatype Cluster = Cluster(ping: InspectCelery.Reply, active: InspectCelery.Reply,
                             reserved: InspectCelery.Reply, scheduled: InspectCelery.Reply)

  /** `challenge_lock`: a lock whose owner no active worker knows of is
      removed. */
  function Challenge(store: Store, key: string, cluster: Cluster): (r: Store)
    ensures r == store || r == store - {key}
    ensures !InspectCelery.AreWorkersActive(cluster.ping) ==> r == store
  {
    match Owner(store, key)
    case None => store
    case Some(owner) =>
      if owner == "" then store
      else if !InspectCelery.AreWorkersActive(cluster.ping) then store
      else if InspectCelery.GetTaskById(owner, cluster.active, cluster.reserved, cluster.scheduled).Some? then store
      else store - {key}
  }

  /** The challenge unlocks exactly when the lock has an owner, some worker
      is active and no worker knows the owner; it touches no other key. */
  lemma ChallengeUnlocksOnlyOrphans(store: Store, key: string, cluster: Cluster)
    ensures Challenge(store, key, cluster) == store || Challenge(store, key, cluster) == store - {key}
    ensures Challenge(store, key, cluster) != store <==>
      key in store && store[key] != "" && InspectCelery.AreWorkersActive(cluster.ping) &&
      InspectCelery.GetTaskById(store[key], cluster.active, cluster.reserved, cluster.scheduled).None?
  {
    if key in store && store[key] != "" && InspectCelery.AreWorkersActive(cluster.ping) &&
       InspectCelery.GetTaskById(store[key], cluster.active, cluster.reserved, cluster.scheduled).None? {
      assert key !in Challenge(store, key, cluster);
    }
  }

  lemma ChallengeKeepsOwnersNamed(store: Store, key: string, cluster: Cluster)
    requires OwnersNamed(store)
    ensures OwnersNamed(Challenge(store, key, cluster))
  {
  }

  // ----- the submission -----

  /** What `apply_async` gives back: the handle of the submitted task, the
      handle of the running duplicate, the duplicate error, or the
      exception that ended it. */
  datatype Outcome =
    | Queued(taskId: string)
    | Attached(taskId: string)
    | Duplicate(taskId: string)
    | SubmitFailed(error: string)
    | KeyFailed(keyError: PyError)

  /** `on_duplicate`: raise with the owner's id or return its handle. */
  function OnDuplicate(def: TaskDef, conf: Config.Conf, existing: string): (r: Outcome)
    ensures Config.Truthy(RaisePolicy(def, conf)) <==> r == Duplicate(existing)
    ensures !Config.Truthy(RaisePolicy(def, conf)) <==> r == Attached(existing)
  {
    if Config.Truthy(RaisePolicy(def, conf)) then Duplicate(existing) else Attached(existing)
  }

  /** `task_id or uuid()`. */
  function SubmittedId(taskId: Option<string>, freshId: string): (r: string)
    ensures freshId != "" ==> r != ""
    ensures r == freshId || (taskId.Some? && r == taskId.value)
    ensures taskId.Some? && taskId.value != "" ==> r == taskId.value
  {
    if taskId.Some? && taskId.value != "" then taskId.value else freshId
  }

  /** What follows the acquisition loop: the duplicate policy when another
      task owns the lock, the broker's answer when the lock was taken (a
      failed send gives the lock back). */
  function Settle(def: TaskDef, conf: Config.Conf, key: string, taskId: string,
                  race: (RaceEnd, Store), submitError: Option<string>): (r: (Outcome, Store))
    ensures r.0.Queued? <==> race.0.Acquired? && submitError.None?
    ensures r.0.SubmitFailed? <==> race.0.Acquired? && submitError.Some?
    ensures !r.0.SubmitFailed? ==> r.1 == race.1
    ensures r.0.SubmitFailed? ==> key !in r.1
    ensures race.0.Owned? ==> (r.0.Attached? || r.0.Duplicate?) && r.0.taskId == race.0.owner
  {
    match race.0
    case Owned(owner) => (OnDuplicate(def, conf, owner), race.1)
    case Acquired =>
      if submitError.Some? then (SubmitFailed(submitError.value), race.1 - {key})
      else (Queued(taskId), race.1)
  }

  /** One submission as a whole: its outcome and the store it leaves.
      `submitError` is the error the broker raises, if any. */
  function Dispatch(def: TaskDef, conf: Config.Conf, md5: string -> LockKey.HexDigest, store: Store,
                    submitError: Option<string>, args: seq<Json>, kwargs: seq<Entry<Json>>,
                    taskId: string, cluster: Cluster, script: seq<Round>): (r: (Outcome, Store))
    requires OwnersNamed(store) && ScriptNamed(script) && taskId != ""
    ensures OwnersNamed(r.1)
    ensures r.0.KeyFailed? <==> TaskLockKey(def, conf, md5, Some(args), Some(kwargs)).Failure?
    ensures r.0.KeyFailed? ==> r.1 == store
    ensures r.0.Queued? ==> r.0.taskId == taskId
  {
    match TaskLockKey(def, conf, md5, Some(args), Some(kwargs))
    case Failure(e) => (KeyFailed(e), store)
    case Success(key) => DispatchOn(def, conf, key, store, submitError, taskId, cluster, script)
  }

  /** A submission once its key is known: the optional challenge, the
      acquisition loop and what follows it. */
  function DispatchOn(def: TaskDef, conf: Config.Conf, key: string, store: Store, submitError: Option<string>,
                      taskId: string, cluster: Cluster, script: seq<Round>): (r: (Outcome, Store))
    requires OwnersNamed(store) && ScriptNamed(script) && taskId != ""
    ensures OwnersNamed(r.1) && !r.0.KeyFailed?
    ensures r.0.Queued? ==> r.0.taskId == taskId
  {
    var s0 := if def.challengeLockOnStartup then Challenge(store, key, cluster) else store;
    Settle(def, conf, key, taskId, Race(s0, key, taskId, script, 0), submitError)
  }

  /** Whatever the interleaving, a submission ends in one of these ways: it
      is queued under its own id and holds the lock; it reports an owner that
      holds the lock; its submission failed and the lock is free; or the key
      could not be computed and nothing changed. */
  lemma DispatchOutcomes(def: TaskDef, conf: Config.Conf, md5: string -> LockKey.HexDigest, store: Store,
                         submitError: Option<string>, args: seq<Json>, kwargs: seq<Entry<Json>>,
                         taskId: string, cluster: Cluster, script: seq<Round>)
    requires OwnersNamed(store) && ScriptNamed(script) && taskId != ""
    ensures var (out, s) := Dispatch(def, conf, md5, store, submitError, args, kwargs, taskId, cluster, script);
      var key := TaskLockKey(def, conf, md5, Some(args), Some(kwargs));
      OwnersNamed(s) &&
      (out.KeyFailed? <==> key.Failure?) &&
      (out.KeyFailed? ==> s == store && out.keyError == key.error) &&
      (out.Queued? ==> submitError.None? && out.taskId == taskId && key.Success? && key.value in s && s[key.value] == taskId) &&
      ((out.Attached? || out.Duplicate?) ==> out.taskId != "" && key.Success? && key.value in s && s[key.value] == out.taskId) &&
      (out.Duplicate? <==> key.Success? && Config.Truthy(RaisePolicy(def, conf)) && (out.Attached? || out.Duplicate?)) &&
      (out.SubmitFailed? ==> submitError.Some? && out.error == submitError.value && key.Success? && key.value !in s)
  {
  }

  /** A submission whose lock is free is queued under its own id, and a
      second identical submission then attaches to it, or raises with its id
      when duplicates raise. */
  lemma SecondSubmissionFindsFirst(def: TaskDef, conf: Config.Conf, md5: string -> LockKey.HexDigest, store: Store,
                                   args: seq<Json>, kwargs: seq<Entry<Json>>, id1: string, id2: string, cluster: Cluster)
    requires OwnersNamed(store) && id1 != "" && id2 != "" && !def.challengeLockOnStartup
    requires TaskLockKey(def, conf, md5, Some(args), Some(kwargs)).Success?
    requires TaskLockKey(def, conf, md5, Some(args), Some(kwargs)).value !in store
    ensures var (out1, s1) := Dispatch(def, conf, md5, store, None, args, kwargs, id1, cluster, []);
      out1 == Queued(id1) &&
      Dispatch(def, conf, md5, s1, None, args, kwargs, id2, cluster, []).0 == OnDuplicate(def, conf, id1)
  {
    var key := TaskLockKey(def, conf, md5, Some(args), Some(kwargs)).value;
    RaceUncontended(store, key, id1);
    RaceUncontended(store[key := id1], key, id2);
  }

  /** Once the task's end handler released its key, the same call is queued
      again under a new id. */
  lemma ResubmitAfterRelease(def: TaskDef, conf: Config.Conf, md5: string -> LockKey.HexDigest, store: Store,
                             args: seq<Json>, kwargs: seq<Entry<Json>>, taskId: string, cluster: Cluster)
    requires OwnersNamed(store) && taskId != "" && !def.challengeLockOnStartup
    requires TaskLockKey(def, conf, md5, Some(args), Some(kwargs)).Success?
    ensures var key := TaskLockKey(def, conf, md5, Some(args), Some(kwargs)).value;
      Dispatch(def, conf, md5, store - {key}, None, args, kwargs, taskId, cluster, []) ==
        (Queued(taskId), (store - {key})[key := taskId])
  {
    var key := TaskLockKey(def, conf, md5, Some(args), Some(kwargs)).value;
    RaceUncontended(store - {key}, key, taskId);
  }

  // ----- the broker and the task class -----

  /** A message sent to the broker: the task id and the call. */
  datatype Message = Message(taskId: string, args: seq<Json>, kwargs: seq<Entry<Json>>)

  /** The Celery broker `BaseTask.apply_async` sends to.  `failure` is the
      error the next send raises, if any. */
  class Broker {
    var sent: seq<Message>
    var failure: Option<string>

    constructor (failure: Option<string>)
      ensures sent == [] && this.failure == failure
    {
      sent := [];
      this.failure := failure;
    }

    /** Sends the message, or raises the scripted error and sends nothing. */
    method Send(m: Message) returns (error: Option<string>)
      modifies this
      ensures error == failure && failure == old(failure)
      ensures sent == if error.None? then old(sent) + [m] else old(sent)
    {
      error := failure;
      if error.None? {
        sent := sent + [m];
      }
    }
  }

  /** Another producer's move on the shared store, made through the same
      backend operations. */
  method Interleave(backend: RedisBackend, key: string, act: Interleaving)
    modifies backend
    ensures backend.store == Interfere(old(backend.store), key, act)
  {
    match act
    case Idle =>
    case Acquire(owner) =>
      var _ := backend.Lock(key, owner, None);
    case Release =>
      backend.Unlock(key);
  }

  class Singleton {
    const def: TaskDef
    const conf: Config.Conf
    const backend: RedisBackend
    const broker: Broker
    /** `md5(text.encode()).hexdigest()`. */
    const md5: string -> LockKey.HexDigest

    constructor (def: TaskDef, conf: Config.Conf, backend: RedisBackend, broker: Broker, md5: string -> LockKey.HexDigest)
      ensures this.def == def && this.conf == conf && this.backend == backend && this.broker == broker && this.md5 == md5
    {
      this.def := def;
      this.conf := conf;
      this.backend := backend;
      this.broker := broker;
      this.md5 := md5;
    }

    /** `aquire_lock`: the backend lock, passed the expiry in force. */
    method AquireLock(key: string, taskId: string) returns (acquired: bool)
      modifies backend
      ensures LockContract(old(backend.store), backend.store, key, taskId, acquired)
    {
      var expiry := Expiry(def, conf);
      acquired := backend.Lock(key, taskId, if expiry.Number? then Some(expiry.n) else None);
    }

    /** `get_existing_task_id`. */
    method GetExistingTaskId(key: string) returns (owner: Option<string>)
      ensures owner == Owner(backend.store, key)
    {
      owner := backend.Get(key);
    }

    /** `unlock`. */
    method Unlock(key: string)
      modifies backend
      ensures UnlockContract(old(backend.store), backend.store, key)
    {
      backend.Unlock(key);
    }

    /** `lock_and_run`: take the lock and submit; if the submission raises,
        give the lock back and pass the error on.  None when the lock is
        held. */
    method LockAndRun(key: string, args: seq<Json>, kwargs: seq<Entry<Json>>, taskId: string) returns (task: Option<Outcome>)
      modifies backend, broker
      ensures broker.failure == old(broker.failure)
      ensures key in old(backend.store) ==> task.None? && backend.store == old(backend.store) && broker.sent == old(broker.sent)
      ensures key !in old(backend.store) && old(broker.failure).None? ==>
        task == Some(Queued(taskId)) && backend.store == old(backend.store)[key := taskId] &&
        broker.sent == old(broker.sent) + [Message(taskId, args, kwargs)]
      ensures key !in old(backend.store) && old(broker.failure).Some? ==>
        task == Some(SubmitFailed(old(broker.failure).value)) && backend.store == old(backend.store) &&
        broker.sent == old(broker.sent)
    {
      var acquired := AquireLock(key, taskId);
      if !acquired {
        return None;
      }
      var error := broker.Send(Message(taskId, args, kwargs));
      if error.Some? {
        Unlock(key);
        return Some(SubmitFailed(error.value));
      }
      return Some(Queued(taskId));
    }

    /** `challenge_lock`. */
    method ChallengeLock(key: string, cluster: Cluster)
      modifies backend
      ensures backend.store == Challenge(old(backend.store), key, cluster)
    {
      var current := backend.Get(key);
      if current.None? || current.value == "" {
        return;
      }
      if !InspectCelery.AreWorkersActive(cluster.ping) {
        return;
      }
      var found := InspectCelery.GetTaskById(current.value, cluster.active, cluster.reserved, cluster.scheduled);
      if found.Some? {
        return;
      }
      Unlock(key);
    }

    /** One pass of the acquisition loop, round `n` of the script: the
        other producers' move, `lock_and_run`, their next move, and
        `get_existing_task_id` when the lock was held. */
    method AttemptRound(key: string, args: seq<Json>, kwargs: seq<Entry<Json>>, taskId: string,
                        script: seq<Round>, n: nat) returns (task: Option<Outcome>, existing: Option<string>)
      requires OwnersNamed(backend.store) && ScriptNamed(script) && taskId != "" && n <= |script|
      modifies backend, broker
      ensures broker.failure == old(broker.failure)
      ensures task.Some? ==>
        Race(old(backend.store), key, taskId, script, n).0 == Acquired &&
        (task.value, backend.store) == Settle(def, conf, key, taskId, Race(old(backend.store), key, taskId, script, n), broker.failure) &&
        broker.sent == old(broker.sent) + (if task.value.Queued? then [Message(taskId, args, kwargs)] else [])
      ensures task.None? ==>
        broker.sent == old(broker.sent) && OwnersNamed(backend.store) && existing == Owner(backend.store, key) &&
        (existing.Some? && existing.value != "" ==>
           Race(old(backend.store), key, taskId, script, n) == (Owned(existing.value), backend.store)) &&
        (!(existing.Some? && existing.value != "") ==>
           n < |script| && Race(old(backend.store), key, taskId, script, n) == Race(backend.store, key, taskId, script, n + 1))
    {
      Interleave(backend, key, RoundAt(script, n).beforeLock);
      ghost var s1 := backend.store;
      task := LockAndRun(key, args, kwargs, taskId);
      if task.Some? {
        assert s1[key := taskId] - {key} == s1;
        existing := None;
        return;
      }
      Interleave(backend, key, RoundAt(script, n).beforeGet);
      existing := GetExistingTaskId(key);
    }

    /** The acquisition loop of `apply_async` and what follows it, for a
        key already computed: the first pass, then further passes while no
        owner is found, then the duplicate policy. */
    method Acquire(key: string, args: seq<Json>, kwargs: seq<Entry<Json>>, taskId: string,
                   script: seq<Round>) returns (out: Outcome)
      requires OwnersNamed(backend.store) && ScriptNamed(script) && taskId != ""
      modifies backend, broker
      ensures (out, backend.store) == Settle(def, conf, key, taskId, Race(old(backend.store), key, taskId, script, 0), old(broker.failure))
      ensures broker.sent == old(broker.sent) + (if out.Queued? then [Message(taskId, args, kwargs)] else [])
    {
      var task, existing := AttemptRound(key, args, kwargs, taskId, script, 0);
      if task.Some? {
        return task.value;
      }
      var round := 0;
      while !(existing.Some? && existing.value != "")
        invariant round <= |script|
        invariant OwnersNamed(backend.store)
        invariant existing.Some? && existing.value != "" ==>
          Race(old(backend.store), key, taskId, script, 0) == (Owned(existing.value), backend.store)
        invariant !(existing.Some? && existing.value != "") ==>
          round < |script| &&
          Race(old(backend.store), key, taskId, script, 0) == Race(backend.store, key, taskId, script, round + 1)
        invariant broker.sent == old(broker.sent) && broker.failure == old(broker.failure)
        decreases |script| - round
      {
        round := round + 1;
        task, existing := AttemptRound(key, args, kwargs, taskId, script, round);
        if task.Some? {
          return task.value;
        }
      }
      return OnDuplicate(def, conf, existing.value);
    }

    /** `apply_async`.  `freshId` is what `uuid()` returns, `cluster` the
        replies of the inspection calls and `script` the other producers'
        moves, round by round. */
    method ApplyAsync(args: Option<seq<Json>>, kwargs: Option<seq<Entry<Json>>>, taskId: Option<string>,
                      freshId: string, cluster: Cluster, script: seq<Round>) returns (out: Outcome)
      requires freshId != ""
      requires OwnersNamed(backend.store) && ScriptNamed(script)
      modifies backend, broker
      ensures var a, k := LockKey.ArgsOrEmpty(args), LockKey.KwargsOrEmpty(kwargs);
        var id := SubmittedId(taskId, freshId);
        (out, backend.store) == Dispatch(def, conf, md5, old(backend.store), old(broker.failure), a, k, id, cluster, script) &&
        broker.sent == old(broker.sent) + (if out.Queued? then [Message(id, a, k)] else [])
    {
      var a := LockKey.ArgsOrEmpty(args);
      var k := LockKey.KwargsOrEmpty(kwargs);
      var id := SubmittedId(taskId, freshId);
      var keyOrError := TaskLockKey(def, conf, md5, Some(a), Some(k));
      if keyOrError.Failure? {
        return KeyFailed(keyOrError.error);
      }
      var key := keyOrError.value;
      if def.challengeLockOnStartup {
        ChallengeLock(key, cluster);
        ChallengeKeepsOwnersNamed(old(backend.store), key, cluster);
      }
      out := Acquire(key, a, k, id, script);
    }

    /** `release_lock`: unlock the key of the given call.  An error computing
        the key is passed on and nothing is unlocked. */
    method ReleaseLock(args: Option<seq<Json>>, kwargs: Option<seq<Entry<Json>>>) returns (error: Option<PyError>)
      modifies backend
      ensures match TaskLockKey(def, conf, md5, args, kwargs)
        case Success(key) => error.None? && UnlockContract(old(backend.store), backend.store, key)
        case Failure(e) => error == Some(e) && backend.store == old(backend.store)
    {
      var key := TaskLockKey(def, conf, md5, args, kwargs);
      if key.Failure? {
        return Some(key.error);
      }
      Unlock(key.value);
      return None;
    }

    /** `on_success`: the task ended; its lock is released. */
    method OnSuccess(args: Option<seq<Json>>, kwargs: Option<seq<Entry<Json>>>) returns (error: Option<PyError>)
      modifies backend
      ensures match TaskLockKey(def, conf, md5, args, kwargs)
        case Success(key) => error.None? && UnlockContract(old(backend.store), backend.store, key)
        case Failure(e) => error == Some(e) && backend.store == old(backend.store)
    {
      error := ReleaseLock(args, kwargs);
    }

    /** `on_failure`: the task raised; its lock is released all the same. */
    method OnFailure(args: Option<seq<Json>>, kwargs: Option<seq<Entry<Json>>>) returns (error: Option<PyError>)
      modifies backend
      ensures match TaskLockKey(def, conf, md5, args, kwargs)
        case Success(key) => error.None? && UnlockContract(old(backend.store), backend.store, key)
        case Failure(e) => error == Some(e) && backend.store == old(backend.store)
    {
      error := ReleaseLock(args, kwargs);
    }
  }

  /** `clear_locks`: remove every lock under the configured prefix.  A
      prefix setting that is not a str cannot form the scan pattern. */
  method ClearLocks(conf: Config.Conf, backend: RedisBackend, replies: seq<ScanReply>) returns (error: Option<PyError>)
    requires Config.KeyPrefix(conf).Text? ==> ScanComplete(backend.store, Config.KeyPrefix(conf).s, replies)
    modifies backend
    ensures Config.KeyPrefix(conf).Text? ==>
      error.None? && ClearContract(old(backend.store), backend.store, Config.KeyPrefix(conf).s)
    ensures !Config.KeyPrefix(conf).Text? ==> error == Some(TypeError) && backend.store == old(backend.store)
  {
    var prefix := Config.KeyPrefix(conf);
    if !prefix.Text? {
      return Some(TypeError);
    }
    backend.Clear(prefix.s, replies);
    return None;
  }
}
