/**
 * The lock key of a task call (celery_singleton/util.py): the key prefix
 * followed by the md5 hex digest of the task name, the JSON text of the
 * positional arguments and the JSON text of the keyword arguments, both
 * written with sorted keys.
 */
module LockKey {
  import opened Wrappers
  import opened KeyOrder
  import opened Json
  import opened JsonDecode

  predicate IsLowerHex(c: char)
  {
    '0' <= c <= '9' || 'a' <= c <= 'f'
  }

  /** What `md5(...).hexdigest()` returns: 32 lower-case hexadecimal digits. */
  type HexDigest = s: string | |s| == 32 && forall i :: 0 <= i < |s| ==> IsLowerHex(s[i])
    witness "00000000000000000000000000000000"

  /** `task_args or []`: a missing or empty argument list is the empty list. */
  function ArgsOrEmpty(args: Option<seq<Json>>): seq<Json>
  {
    if args.None? then [] else args.value
  }

  /** `task_kwargs or {}`. */
  function KwargsOrEmpty(kwargs: Option<seq<Entry<Json>>>): seq<Entry<Json>>
  {
    if kwargs.None? then [] else kwargs.value
  }

  /** The text that is hashed: name, then the arguments, then the keyword
      arguments, each serialised with sorted keys. */
  function HashInput(name: string, args: Option<seq<Json>>, kwargs: Option<seq<Entry<Json>>>): (r: string)
    ensures |r| > |name| && r[..|name|] == name
    ensures r[|name|] == '['
    ensures r[|r| - 1] == '}'
  {
    name + Dumps(Array(ArgsOrEmpty(args))) + Dumps(Object(KwargsOrEmpty(kwargs)))
  }

  /** `generate_lock`; `md5` stands for `md5(text.encode()).hexdigest()`. */
  function GenerateLock(name: string, args: Option<seq<Json>>, kwargs: Option<seq<Entry<Json>>>,
                        prefix: string, md5: string -> HexDigest): (key: string)
    ensures |key| == |prefix| + 32
    ensures key[..|prefix|] == prefix
    ensures forall i :: |prefix| <= i < |key| ==> IsLowerHex(key[i])
  {
    prefix + md5(HashInput(name, args, kwargs))
  }

  /** No arguments and an empty argument list give the same key, and likewise
      for keyword arguments. */
  lemma MissingArgsAreEmpty(name: string, prefix: string, md5: string -> HexDigest)
    ensures GenerateLock(name, None, None, prefix, md5) == GenerateLock(name, Some([]), Some([]), prefix, md5)
  {
  }

  /** The order keyword arguments were passed in does not change the key. */
  lemma KwargsOrderIgnored(name: string, args: Option<seq<Json>>, a: seq<Entry<Json>>, b: seq<Entry<Json>>,
                           prefix: string, md5: string -> HexDigest)
    requires DistinctKeys(a) && multiset(a) == multiset(b)
    ensures GenerateLock(name, args, Some(a), prefix, md5) == GenerateLock(name, args, Some(b), prefix, md5)
  {
    DumpsIgnoresKeyOrder(a, b);
  }

  /** Keys are sorted inside positional arguments too: calls whose
      arguments are written alike one by one, however the dicts inside them
      were ordered, get the same key. */
  lemma NestedArgsKeyOrderIgnored(name: string, xs: seq<Json>, ys: seq<Json>, kwargs: Option<seq<Entry<Json>>>,
                                  prefix: string, md5: string -> HexDigest)
    requires |xs| == |ys| && forall i :: 0 <= i < |xs| ==> Canon(xs[i]) == Canon(ys[i])
    ensures GenerateLock(name, Some(xs), kwargs, prefix, md5) == GenerateLock(name, Some(ys), kwargs, prefix, md5)
  {
    CanonArrayCongruent(xs, ys);
  }

  /** Keys are sorted at every depth of the keyword arguments: reordering
      the keyword arguments and the dicts inside their values leaves the key
      as it is. */
  lemma NestedKwargsKeyOrderIgnored(name: string, args: Option<seq<Json>>,
                                    a: seq<Entry<Json>>, c: seq<Entry<Json>>, b: seq<Entry<Json>>,
                                    prefix: string, md5: string -> HexDigest)
    requires DistinctKeys(a) && multiset(a) == multiset(c)
    requires |c| == |b| && forall i :: 0 <= i < |b| ==> c[i].key == b[i].key && Canon(c[i].value) == Canon(b[i].value)
    ensures GenerateLock(name, args, Some(a), prefix, md5) == GenerateLock(name, args, Some(b), prefix, md5)
  {
    CanonObjectCongruent(a, c, b);
  }

  /** For one task name, the hashed text identifies the call: two calls hash
      the same text exactly when their arguments and keyword arguments are
      equal once every dict in them, at every depth, has its keys sorted. */
  lemma HashInputIdentifiesCall(name: string, args1: Option<seq<Json>>, kwargs1: Option<seq<Entry<Json>>>,
                                args2: Option<seq<Json>>, kwargs2: Option<seq<Entry<Json>>>)
    ensures HashInput(name, args1, kwargs1) == HashInput(name, args2, kwargs2) <==>
            Canon(Array(ArgsOrEmpty(args1))) == Canon(Array(ArgsOrEmpty(args2))) &&
            Canon(Object(KwargsOrEmpty(kwargs1))) == Canon(Object(KwargsOrEmpty(kwargs2)))
  {
    var a1, a2 := Canon(Array(ArgsOrEmpty(args1))), Canon(Array(ArgsOrEmpty(args2)));
    var k1, k2 := Canon(Object(KwargsOrEmpty(kwargs1))), Canon(Object(KwargsOrEmpty(kwargs2)));
    if HashInput(name, args1, kwargs1) == HashInput(name, args2, kwargs2) {
      var t1, t2 := Emit(a1) + Emit(k1), Emit(a2) + Emit(k2);
      assert name + t1 == HashInput(name, args1, kwargs1);
      assert name + t2 == HashInput(name, args2, kwargs2);
      assert t1 == (name + t1)[|name|..] == (name + t2)[|name|..] == t2;
      assert Emit(k1)[0] == '{' && Emit(k2)[0] == '{';
      RoundTrip(a1, Emit(k1));
      RoundTrip(a2, Emit(k2));
      EmitInjective(k1, k2);
    }
  }

  /** When the hash does not collide on the two texts, two calls of one task
      get the same key exactly when their arguments agree; `[1, 2, 3]` and
      `[3, 2, 1]` therefore get different keys. */
  lemma KeyIdentifiesCall(name: string, args1: Option<seq<Json>>, kwargs1: Option<seq<Entry<Json>>>,
                          args2: Option<seq<Json>>, kwargs2: Option<seq<Entry<Json>>>,
                          prefix: string, md5: string -> HexDigest)
    requires md5(HashInput(name, args1, kwargs1)) == md5(HashInput(name, args2, kwargs2)) ==>
             HashInput(name, args1, kwargs1) == HashInput(name, args2, kwargs2)
    ensures GenerateLock(name, args1, kwargs1, prefix, md5) == GenerateLock(name, args2, kwargs2, prefix, md5) <==>
            Canon(Array(ArgsOrEmpty(args1))) == Canon(Array(ArgsOrEmpty(args2))) &&
            Canon(Object(KwargsOrEmpty(kwargs1))) == Canon(Object(KwargsOrEmpty(kwargs2)))
  {
    HashInputIdentifiesCall(name, args1, kwargs1, args2, kwargs2);
    var k1, k2 := GenerateLock(name, args1, kwargs1, prefix, md5), GenerateLock(name, args2, kwargs2, prefix, md5);
    if k1 == k2 {
      assert k1[|prefix|..] == k2[|prefix|..];
    }
  }

  /** The argument order is part of the key's input. */
  lemma ArgumentOrderMatters(name: string)
    ensures HashInput(name, Some([Int(1), Int(2), Int(3)]), None) != HashInput(name, Some([Int(3), Int(2), Int(1)]), None)
  {
    HashInputIdentifiesCall(name, Some([Int(1), Int(2), Int(3)]), None, Some([Int(3), Int(2), Int(1)]), None);
    var a := Canon(Array([Int(1), Int(2), Int(3)]));
    assert a.items[0] == Int(1);
  }
}
