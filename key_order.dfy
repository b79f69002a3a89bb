/**
 * The ordering `json.dumps(..., sort_keys=True)` puts object keys in:
 * Python compares `str` values lexicographically by code point, and
 * `sorted(d.items())` is a stable sort.  Entries of an object are kept as
 * an ordered sequence of key/value entries, the way a Python dict keeps
 * insertion order.
 */
module KeyOrder {
  import opened Wrappers

  /** One key/value pair of a dict. */
  datatype Entry<V> = Entry(key: string, value: V)

  /** Python's `a < b` on `str`: lexicographic by code point, a proper prefix
      sorting first. */
  predicate Below(a: string, b: string)
  {
    if a == [] then b != []
    else if b == [] then false
    else if a[0] != b[0] then a[0] < b[0]
    else Below(a[1..], b[1..])
  }

  /** `a <= b` for strings. */
  predicate AtMost(a: string, b: string)
  {
    !Below(b, a)
  }

  lemma {:induction false} BelowIrreflexive(a: string)
    ensures !Below(a, a)
  {
    if a != [] {
      BelowIrreflexive(a[1..]);
    }
  }

  lemma {:induction false} BelowTransitive(a: string, b: string, c: string)
    requires Below(a, b) && Below(b, c)
    ensures Below(a, c)
  {
    if a != [] && a[0] == b[0] && b[0] == c[0] {
      BelowTransitive(a[1..], b[1..], c[1..]);
    }
  }

  lemma {:induction false} BelowTotal(a: string, b: string)
    requires a != b
    ensures Below(a, b) || Below(b, a)
  {
    if a != [] && b != [] && a[0] == b[0] {
      assert a == [a[0]] + a[1..] && b == [b[0]] + b[1..];
      BelowTotal(a[1..], b[1..]);
    }
  }

  /** `<=` on strings is transitive. */
  lemma AtMostTransitive(a: string, b: string, c: string)
    requires AtMost(a, b) && AtMost(b, c)
    ensures AtMost(a, c)
  {
    if a != b && b != c && Below(c, a) {
      BelowTotal(a, b);
      BelowTotal(b, c);
      BelowTransitive(a, b, c);
      BelowTransitive(a, c, a);
      BelowIrreflexive(a);
    }
  }

  /** Two keys that are each at most the other are the same key. */
  lemma AtMostAntisymmetric(a: string, b: string)
    requires AtMost(a, b) && AtMost(b, a)
    ensures a == b
  {
    if a != b {
      BelowTotal(a, b);
    }
  }

  predicate SortedByKey<V>(s: seq<Entry<V>>)
  {
    forall i, j :: 0 <= i < j < |s| ==> AtMost(s[i].key, s[j].key)
  }

  /** No key occurs twice, as in a Python dict. */
  predicate DistinctKeys<V>(s: seq<Entry<V>>)
  {
    forall i, j :: 0 <= i < j < |s| ==> s[i].key != s[j].key
  }

  function Keys<V>(s: seq<Entry<V>>): seq<string>
  {
    seq(|s|, i requires 0 <= i < |s| => s[i].key)
  }

  /** `d[key]` on a dict: the value of the entry with that key, if any. */
  function Lookup<V>(es: seq<Entry<V>>, key: string): Option<V>
  {
    if es == [] then None
    else if es[0].key == key then Some(es[0].value)
    else Lookup(es[1..], key)
  }

  /** The lookup finds the first entry with the key, and fails only when no
      entry has it. */
  lemma {:induction false} LookupFirst<V>(es: seq<Entry<V>>, key: string)
    ensures Lookup(es, key).None? <==> forall i :: 0 <= i < |es| ==> es[i].key != key
    ensures Lookup(es, key).Some? ==>
      exists i :: 0 <= i < |es| && es[i].key == key && es[i].value == Lookup(es, key).value &&
        forall j :: 0 <= j < i ==> es[j].key != key
  {
    if es != [] && es[0].key != key {
      LookupFirst(es[1..], key);
      if Lookup(es, key).Some? {
        var i :| 0 <= i < |es| - 1 && es[1..][i].key == key && es[1..][i].value == Lookup(es, key).value &&
          forall j :: 0 <= j < i ==> es[1..][j].key != key;
        assert es[i + 1] == es[1..][i];
        assert forall j :: 1 <= j < i + 1 ==> es[j] == es[1..][j - 1];
      } else {
        assert forall i :: 1 <= i < |es| ==> es[i] == es[1..][i - 1];
      }
    }
  }

  /** Applies `f` to every value, keeping keys and order. */
  function MapValues<V, W>(s: seq<Entry<V>>, f: V -> W): (r: seq<Entry<W>>)
    ensures |r| == |s|
    ensures forall i :: 0 <= i < |r| ==> r[i] == Entry(s[i].key, f(s[i].value))
  {
    if s == [] then [] else [Entry(s[0].key, f(s[0].value))] + MapValues(s[1..], f)
  }

  /** Puts `e` before the first entry whose key is not below its own. */
  function Insert<V>(e: Entry<V>, s: seq<Entry<V>>): seq<Entry<V>>
  {
    if s == [] || !Below(s[0].key, e.key) then [e] + s
    else [s[0]] + Insert(e, s[1..])
  }

  /** Stable insertion sort by key: the order of `sorted(d.items())`. */
  function SortByKey<V>(s: seq<Entry<V>>): seq<Entry<V>>
  {
    if s == [] then [] else Insert(s[0], SortByKey(s[1..]))
  }

  lemma {:induction false} InsertPermutes<V>(e: Entry<V>, s: seq<Entry<V>>)
    ensures multiset(Insert(e, s)) == multiset{e} + multiset(s)
  {
    if s != [] && Below(s[0].key, e.key) {
      InsertPermutes(e, s[1..]);
      assert s == [s[0]] + s[1..];
    }
  }

  /** The sort only reorders: the result is a permutation of the input. */
  lemma {:induction false} SortPermutes<V>(s: seq<Entry<V>>)
    ensures multiset(SortByKey(s)) == multiset(s)
  {
    if s != [] {
      SortPermutes(s[1..]);
      InsertPermutes(s[0], SortByKey(s[1..]));
      assert s == [s[0]] + s[1..];
    }
  }

  /** A lower bound of `e` and of every entry of `s` bounds every entry
      of the insertion. */
  lemma {:induction false} InsertLowerBound<V>(b: string, e: Entry<V>, s: seq<Entry<V>>)
    requires AtMost(b, e.key)
    requires forall j :: 0 <= j < |s| ==> AtMost(b, s[j].key)
    ensures forall j :: 0 <= j < |Insert(e, s)| ==> AtMost(b, Insert(e, s)[j].key)
  {
    if s != [] && Below(s[0].key, e.key) {
      var tail := s[1..];
      forall j | 0 <= j < |tail| ensures AtMost(b, tail[j].key) {
        assert tail[j] == s[j + 1];
      }
      InsertLowerBound(b, e, tail);
      var t := Insert(e, tail);
      assert Insert(e, s) == [s[0]] + t;
      forall j | 0 <= j < |Insert(e, s)| ensures AtMost(b, Insert(e, s)[j].key) {
        if j > 0 {
          assert Insert(e, s)[j] == t[j - 1];
        }
      }
    }
  }

  lemma {:induction false} InsertSorted<V>(e: Entry<V>, s: seq<Entry<V>>)
    requires SortedByKey(s)
    ensures SortedByKey(Insert(e, s))
  {
    if s == [] || !Below(s[0].key, e.key) {
      var r := [e] + s;
      assert Insert(e, s) == r;
      forall i, j | 0 <= i < j < |r| ensures AtMost(r[i].key, r[j].key) {
        if i == 0 {
          assert r[j] == s[j - 1];
          if j > 1 {
            AtMostTransitive(e.key, s[0].key, s[j - 1].key);
          }
        } else {
          assert r[i] == s[i - 1] && r[j] == s[j - 1];
        }
      }
    } else {
      var tail := s[1..];
      var t := Insert(e, tail);
      assert SortedByKey(tail) by {
        forall i, j | 0 <= i < j < |tail| ensures AtMost(tail[i].key, tail[j].key) {
          assert tail[i] == s[i + 1] && tail[j] == s[j + 1];
        }
      }
      InsertSorted(e, tail);
      if Below(e.key, s[0].key) {
        BelowTransitive(s[0].key, e.key, s[0].key);
        BelowIrreflexive(s[0].key);
      }
      forall j | 0 <= j < |tail| ensures AtMost(s[0].key, tail[j].key) {
        assert tail[j] == s[j + 1];
      }
      InsertLowerBound(s[0].key, e, tail);
      var r := [s[0]] + t;
      assert Insert(e, s) == r;
      forall i, j | 0 <= i < j < |r| ensures AtMost(r[i].key, r[j].key) {
        if i == 0 {
          assert r[j] == t[j - 1];
        } else {
          assert r[i] == t[i - 1] && r[j] == t[j - 1];
        }
      }
    }
  }

  /** The output of the sort is ordered by key. */
  lemma {:induction false} SortSorts<V>(s: seq<Entry<V>>)
    ensures SortedByKey(SortByKey(s))
  {
    if s != [] {
      SortSorts(s[1..]);
      InsertSorted(s[0], SortByKey(s[1..]));
    }
  }

  /** Entries with the same key are the same entry: true of distinct keys,
      and preserved by any permutation. */
  predicate KeyDetermines<V(==)>(s: seq<Entry<V>>)
  {
    forall i, j :: 0 <= i < |s| && 0 <= j < |s| && s[i].key == s[j].key ==> s[i] == s[j]
  }

  lemma KeyDeterminesPermutation<V>(a: seq<Entry<V>>, b: seq<Entry<V>>)
    requires KeyDetermines(a) && multiset(a) == multiset(b)
    ensures KeyDetermines(b)
  {
    forall i, j | 0 <= i < |b| && 0 <= j < |b| && b[i].key == b[j].key ensures b[i] == b[j] {
      assert b[i] in multiset(a) && b[j] in multiset(a);
      var p :| 0 <= p < |a| && a[p] == b[i];
      var q :| 0 <= q < |a| && a[q] == b[j];
    }
  }

  /** Two ordered arrangements of the same entries start with the same entry. */
  lemma SortedHeadsAgree<V>(a: seq<Entry<V>>, b: seq<Entry<V>>)
    requires SortedByKey(a) && SortedByKey(b) && KeyDetermines(a)
    requires multiset(a) == multiset(b) && a != []
    ensures b != [] && a[0] == b[0]
  {
    assert a[0] in multiset(b);
    var k :| 0 <= k < |b| && b[k] == a[0];
    assert b[0] in multiset(a);
    var m :| 0 <= m < |a| && a[m] == b[0];
    BelowIrreflexive(a[0].key);
    BelowIrreflexive(b[0].key);
    assert AtMost(a[0].key, a[m].key);
    assert AtMost(b[0].key, b[k].key);
    AtMostAntisymmetric(a[0].key, b[0].key);
  }

  lemma SortedTail<V>(a: seq<Entry<V>>)
    requires SortedByKey(a) && a != []
    ensures SortedByKey(a[1..])
    ensures KeyDetermines(a) ==> KeyDetermines(a[1..])
    ensures multiset(a[1..]) == multiset(a) - multiset{a[0]}
  {
    assert a == [a[0]] + a[1..];
  }

  /** Once a key determines its entry, there is only one ordered arrangement
      of a given collection of entries. */
  lemma {:induction false} SortedUnique<V>(a: seq<Entry<V>>, b: seq<Entry<V>>)
    requires SortedByKey(a) && SortedByKey(b) && KeyDetermines(a)
    requires multiset(a) == multiset(b)
    ensures a == b
  {
    if a == [] {
      assert |b| == |multiset(b)| == 0;
    } else {
      SortedHeadsAgree(a, b);
      SortedTail(a);
      SortedTail(b);
      SortedUnique(a[1..], b[1..]);
      assert a == [a[0]] + a[1..] && b == [b[0]] + b[1..];
    }
  }

  /** Sorting a dict's entries does not depend on their insertion order. */
  lemma SortIgnoresInsertionOrder<V>(a: seq<Entry<V>>, b: seq<Entry<V>>)
    requires DistinctKeys(a) && multiset(a) == multiset(b)
    ensures SortByKey(a) == SortByKey(b)
  {
    SortPermutes(a);
    SortPermutes(b);
    SortSorts(a);
    SortSorts(b);
    KeyDeterminesPermutation(a, SortByKey(a));
    SortedUnique(SortByKey(a), SortByKey(b));
  }

  lemma {:induction false} InsertMapsValues<V, W>(e: Entry<V>, s: seq<Entry<V>>, f: V -> W)
    ensures Insert(Entry(e.key, f(e.value)), MapValues(s, f)) == MapValues(Insert(e, s), f)
  {
    if s != [] && Below(s[0].key, e.key) {
      InsertMapsValues(e, s[1..], f);
      assert MapValues(s, f)[1..] == MapValues(s[1..], f);
    }
  }

  /** The sort looks at keys only, so mapping the values commutes with it. */
  lemma {:induction false} SortMapsValues<V, W>(s: seq<Entry<V>>, f: V -> W)
    ensures SortByKey(MapValues(s, f)) == MapValues(SortByKey(s), f)
  {
    if s != [] {
      SortMapsValues(s[1..], f);
      assert MapValues(s, f)[1..] == MapValues(s[1..], f);
      InsertMapsValues(s[0], SortByKey(s[1..]), f);
    }
  }
}
