/**
 * Settings resolution (celery_singleton/config.py): each property reads the
 * Celery app's configuration, a mapping from setting names to values, and
 * applies its default or fallback.
 */
module Config {
  import opened Wrappers
  import opened Py

  /** A configuration value: None, a bool, an int, a str, or a class object
      named by its qualified name. */
  datatype Setting =
    | NoneValue
    | Flag(b: bool)
    | Number(n: int)
    | Text(s: string)
    | ClassObject(qualname: string)

  /** `app.conf`. */
  type Conf = map<string, Setting>

  /** Python truth value of a setting; a class object is true. */
  predicate Truthy(v: Setting)
  {
    match v
    case NoneValue => false
    case Flag(b) => b
    case Number(n) => n != 0
    case Text(s) => s != ""
    case ClassObject(_) => true
  }

  /** `conf.get(name, default)`: the stored value, even a stored None, and
      the default only when the name is absent. */
  function Get(conf: Conf, name: string, default: Setting): (v: Setting)
    ensures name in conf ==> v == conf[name]
    ensures name !in conf ==> v == default
  {
    if name in conf then conf[name] else default
  }

  const DefaultKeyPrefix: string := "SINGLETONLOCK_"
  const DefaultBackendClass: string := "celery_singleton.backends.redis.RedisBackend"

  /** `Config.key_prefix`. */
  function KeyPrefix(conf: Conf): (v: Setting)
    ensures "singleton_key_prefix" !in conf ==> v == Text(DefaultKeyPrefix)
    ensures "singleton_key_prefix" in conf ==> v == conf["singleton_key_prefix"]
  {
    Get(conf, "singleton_key_prefix", Text(DefaultKeyPrefix))
  }

  /** `Config.backend_url`: an explicit `singleton_backend_url` that is not
      None, else a `result_backend` that is a Redis URL, else `broker_url`.
      Calling `startswith` on a true value that is not a str raises. */
  function BackendUrl(conf: Conf): (r: Result<Setting, PyError>)
    ensures r.Failure? <==>
      Get(conf, "singleton_backend_url", NoneValue) == NoneValue &&
      Truthy(Get(conf, "result_backend", NoneValue)) && !Get(conf, "result_backend", NoneValue).Text?
    ensures r.Failure? ==> r.error == AttributeError
    ensures (r.Success? && r.value.Text? && Get(conf, "singleton_backend_url", NoneValue) == NoneValue &&
             r.value != Get(conf, "broker_url", NoneValue)) ==>
              StartsWith(r.value.s, "redis://")
  {
    var url := Get(conf, "singleton_backend_url", NoneValue);
    if url != NoneValue then Success(url)
    else
      var result := Get(conf, "result_backend", NoneValue);
      if !Truthy(result) then Success(Get(conf, "broker_url", NoneValue))
      else if !result.Text? then Failure(AttributeError)
      else if !StartsWith(result.s, "redis://") then Success(Get(conf, "broker_url", NoneValue))
      else Success(result)
  }

  /** Where the backend URL comes from, in order of precedence. */
  lemma BackendUrlPrecedence(conf: Conf)
    ensures Get(conf, "singleton_backend_url", NoneValue) != NoneValue ==>
              BackendUrl(conf) == Success(conf["singleton_backend_url"])
    ensures Get(conf, "singleton_backend_url", NoneValue) == NoneValue &&
            "result_backend" in conf && conf["result_backend"].Text? &&
            StartsWith(conf["result_backend"].s, "redis://") ==>
              BackendUrl(conf) == Success(conf["result_backend"])
    ensures Get(conf, "singleton_backend_url", NoneValue) == NoneValue &&
            (!Truthy(Get(conf, "result_backend", NoneValue)) ||
             (Get(conf, "result_backend", NoneValue).Text? &&
              !StartsWith(Get(conf, "result_backend", NoneValue).s, "redis://"))) ==>
              BackendUrl(conf) == Success(Get(conf, "broker_url", NoneValue))
  {
    if Get(conf, "singleton_backend_url", NoneValue) == NoneValue && "result_backend" in conf &&
       conf["result_backend"].Text? && StartsWith(conf["result_backend"].s, "redis://") {
      assert Truthy(conf["result_backend"]);
    }
  }

  /** The URL returned is always one of the three configured settings, and a
      `result_backend` is only chosen when it is a Redis URL. */
  lemma BackendUrlSource(conf: Conf)
    ensures BackendUrl(conf).Success? ==>
      var v := BackendUrl(conf).value;
      (v == Get(conf, "singleton_backend_url", NoneValue) && v != NoneValue) ||
      (v == Get(conf, "result_backend", NoneValue) && v.Text? && StartsWith(v.s, "redis://")) ||
      v == Get(conf, "broker_url", NoneValue)
    ensures BackendUrl(conf).Failure? ==>
      Truthy(Get(conf, "result_backend", NoneValue)) && !Get(conf, "result_backend", NoneValue).Text?
  {
  }

  // ----- `str.split('.')` and `'.'.join(...)` -----

  /** `s.split(".")`. */
  function Split(s: string): (parts: seq<string>)
    ensures |parts| >= 1
  {
    if s == [] then [""]
    else
      var rest := Split(s[1..]);
      if s[0] == '.' then [""] + rest else [[s[0]] + rest[0]] + rest[1..]
  }

  /** `".".join(parts)`. */
  function Join(parts: seq<string>): string
  {
    if parts == [] then ""
    else if |parts| == 1 then parts[0]
    else parts[0] + "." + Join(parts[1..])
  }

  /** A string without a dot is not split. */
  lemma {:induction false} SplitNoDot(s: string)
    requires '.' !in s
    ensures Split(s) == [s]
  {
    if s != [] {
      SplitNoDot(s[1..]);
      assert s == [s[0]] + s[1..];
    }
  }

  /** Splitting at a dot splits both sides. */
  lemma {:induction false} SplitAtDot(a: string, b: string)
    ensures Split(a + "." + b) == Split(a) + Split(b)
  {
    if a == [] {
      assert a + "." + b == "." + b;
      assert ("." + b)[1..] == b;
    } else {
      var s := a + "." + b;
      assert s[0] == a[0] && s[1..] == a[1..] + "." + b;
      SplitAtDot(a[1..], b);
    }
  }

  /** Joining the pieces of a split gives back the string. */
  lemma {:induction false} JoinSplit(s: string)
    ensures Join(Split(s)) == s
  {
    if s != [] {
      var rest := Split(s[1..]);
      JoinSplit(s[1..]);
      assert s == [s[0]] + s[1..];
      if s[0] != '.' && |rest| > 1 {
        assert Split(s)[1..] == rest[1..];
      }
    }
  }

  /** `path[:-1]` joined by "." and `path[-1]`: the module part and the class
      name of a dotted class path. */
  function SplitClassPath(path: string): (string, string)
  {
    var parts := Split(path);
    (Join(parts[..|parts| - 1]), parts[|parts| - 1])
  }

  /** The class path splits at its last dot: whatever precedes the last dot
      is the module part and what follows is the class name. */
  lemma ClassPathSplitsAtLastDot(moduleName: string, className: string)
    requires '.' !in className
    ensures SplitClassPath(moduleName + "." + className) == (moduleName, className)
  {
    SplitAtDot(moduleName, className);
    SplitNoDot(className);
    var parts := Split(moduleName + "." + className);
    assert parts[..|parts| - 1] == Split(moduleName);
    JoinSplit(moduleName);
  }

  /** A path without a dot is all class name, with an empty module part. */
  lemma ClassPathWithoutDot(path: string)
    requires '.' !in path
    ensures SplitClassPath(path) == ("", path)
  {
    SplitNoDot(path);
  }

  /** The backend class setting: a str is a dotted path to import, anything
      else is taken to be the class itself. */
  datatype BackendClassRef = Import(moduleName: string, className: string) | Given(obj: Setting)

  /** `Config.backend_class`, up to the import of the named module. */
  function BackendClass(conf: Conf): (r: BackendClassRef)
    ensures "singleton_backend_class" !in conf ==> r == Import(SplitClassPath(DefaultBackendClass).0, SplitClassPath(DefaultBackendClass).1)
    ensures "singleton_backend_class" in conf && conf["singleton_backend_class"].Text? ==>
      r == Import(SplitClassPath(conf["singleton_backend_class"].s).0, SplitClassPath(conf["singleton_backend_class"].s).1)
    ensures "singleton_backend_class" in conf && !conf["singleton_backend_class"].Text? ==>
      r == Given(conf["singleton_backend_class"])
  {
    var v := Get(conf, "singleton_backend_class", Text(DefaultBackendClass));
    if v.Text? then Import(SplitClassPath(v.s).0, SplitClassPath(v.s).1) else Given(v)
  }

  /** By default the Redis backend class is loaded from its module. */
  lemma DefaultBackendIsRedis(conf: Conf)
    requires "singleton_backend_class" !in conf
    ensures BackendClass(conf) == Import("celery_singleton.backends.redis", "RedisBackend")
  {
    assert DefaultBackendClass == "celery_singleton.backends.redis" + "." + "RedisBackend";
    ClassPathSplitsAtLastDot("celery_singleton.backends.redis", "RedisBackend");
  }

  /** `Config.raise_on_duplicate`: the setting, or None when unset. */
  function RaiseOnDuplicate(conf: Conf): (v: Setting)
    ensures "singleton_raise_on_duplicate" !in conf ==> v == NoneValue
    ensures "singleton_raise_on_duplicate" in conf ==> v == conf["singleton_raise_on_duplicate"]
  {
    Get(conf, "singleton_raise_on_duplicate", NoneValue)
  }

  /** `Config.lock_expiry`: the setting, or None when unset. */
  function LockExpiry(conf: Conf): (v: Setting)
    ensures "singleton_lock_expiry" !in conf ==> v == NoneValue
    ensures "singleton_lock_expiry" in conf ==> v == conf["singleton_lock_expiry"]
  {
    Get(conf, "singleton_lock_expiry", NoneValue)
  }
}
