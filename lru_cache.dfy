/** The memoising decorator `lru_cache` of module1/cache_decorator.py.

    `decorator(func)` creates an `OrderedDict` from call key to result and
    returns `wrapper`, which looks the key up: on a hit it returns the stored
    result and moves the key to the most-recent end; on a miss it first evicts
    the least recently used entry when the dictionary already holds `maxsize`
    entries, then calls `func` and stores the result as the most recent entry.

    The dictionary is modelled by a map (`entries`) and the recency order of
    its keys (`order`, least recently used first). The wrapped callable is a
    function of the call key and of the number of times it has been called
    before, so a callable with state (a mock with a list of side effects)
    is a plain Dafny function; `invocations` counts its calls. */
module LruCache {
  import opened Outcomes

  /** The key `(args, frozenset(kwargs.items()))` built by `wrapper`. */
  datatype CallKey<A(==)> = CallKey(args: seq<A>, kwargs: set<(string, A)>)

  /** Builds the cache key of a call from its positional arguments and its
      keyword arguments, given in call-site order. */
  function MakeKey<A(==,!new)>(args: seq<A>, kwargs: seq<(string, A)>): (k: CallKey<A>)
    ensures k.args == args
    ensures forall item :: item in k.kwargs <==> item in kwargs
  {
    CallKey(args, set item | item in kwargs)
  }

  /** Two calls with the same positional arguments and the same keyword
      arguments, in whatever order they were written, share one cache entry. */
  lemma KeyIgnoresKeywordOrder<A(!new)>(args: seq<A>, kw1: seq<(string, A)>, kw2: seq<(string, A)>)
    requires multiset(kw1) == multiset(kw2)
    ensures MakeKey(args, kw1) == MakeKey(args, kw2)
  {
    forall item
      ensures item in kw1 <==> item in kw2
    {
      assert item in kw1 <==> item in multiset(kw1);
      assert item in kw2 <==> item in multiset(kw2);
    }
    assert MakeKey(args, kw1).kwargs == MakeKey(args, kw2).kwargs;
  }

  /** Two calls share a cache entry exactly when their positional arguments
      are equal and their keyword arguments are the same set of pairs. */
  lemma SameKeyIff<A(!new)>(args1: seq<A>, kw1: seq<(string, A)>, args2: seq<A>, kw2: seq<(string, A)>)
    ensures MakeKey(args1, kw1) == MakeKey(args2, kw2)
        <==> args1 == args2 && (forall item :: item in kw1 <==> item in kw2)
  {
    if args1 == args2 && (forall item :: item in kw1 <==> item in kw2) {
      assert MakeKey(args1, kw1).kwargs == MakeKey(args2, kw2).kwargs;
    }
  }

  // ---------------------------------------------------------------------
  // The recency order

  /** No key occurs twice. */
  ghost predicate NoDup<K>(s: seq<K>)
  {
    forall i, j :: 0 <= i < j < |s| ==> s[i] != s[j]
  }

  /** The first key of a duplicate-free order does not occur again. */
  lemma HeadNotInTail<K>(s: seq<K>)
    requires NoDup(s) && s != []
    ensures s[0] !in s[1..]
    ensures NoDup(s[1..])
  {
    forall j | 0 <= j < |s[1..]|
      ensures s[1..][j] != s[0]
    {
      assert s[1..][j] == s[j + 1];
    }
    forall i, j | 0 <= i < j < |s[1..]|
      ensures s[1..][i] != s[1..][j]
    {
      assert s[1..][i] == s[i + 1] && s[1..][j] == s[j + 1];
    }
  }

  /** Appending a key that does not occur keeps the order duplicate-free. */
  lemma AppendFresh<K>(s: seq<K>, k: K)
    requires NoDup(s) && k !in s
    ensures NoDup(s + [k])
  {
    forall i, j | 0 <= i < j < |s + [k]|
      ensures (s + [k])[i] != (s + [k])[j]
    {
      if j == |s| {
        assert (s + [k])[i] == s[i];
      }
    }
  }

  /** The set of keys occurring in `s`. */
  ghost function Elems<K(!new)>(s: seq<K>): set<K>
  {
    set x | x in s
  }

  /** A duplicate-free sequence has as many elements as distinct members. */
  lemma {:induction false} DistinctCard<K(!new)>(s: seq<K>)
    requires NoDup(s)
    ensures |Elems(s)| == |s|
  {
    if s != [] {
      HeadNotInTail(s);
      DistinctCard(s[1..]);
      assert Elems(s) == {s[0]} + Elems(s[1..]);
    }
  }

  /** `s` with every occurrence of `k` removed, the others in their order. */
  function Without<K(==,!new)>(s: seq<K>, k: K): (r: seq<K>)
    ensures forall x :: x in r <==> x in s && x != k
    ensures |r| <= |s|
    ensures k !in s ==> r == s
    ensures NoDup(s) ==> NoDup(r)
  {
    if s == [] then []
    else if s[0] == k then Without(s[1..], k)
    else
      var rest := Without(s[1..], k);
      assert NoDup(s) ==> s[0] !in rest && NoDup(s[1..]) by {
        if NoDup(s) {
          HeadNotInTail(s);
        }
      }
      [s[0]] + rest
  }

  /** A trailing `k` is dropped along with the others. */
  lemma {:induction false} WithoutDropsLast<K(!new)>(t: seq<K>, k: K)
    ensures Without(t + [k], k) == Without(t, k)
  {
    if t == [] {
      assert t + [k] == [k];
      assert Without([k], k) == Without([k][1..], k);
    } else {
      var tk := t + [k];
      assert tk[0] == t[0] && tk[1..] == t[1..] + [k];
      WithoutDropsLast(t[1..], k);
    }
  }

  /** `OrderedDict.move_to_end(k)` on the key order: `k` becomes the last
      key and no key is gained or lost. */
  function MoveToEnd<K(==,!new)>(s: seq<K>, k: K): (t: seq<K>)
    ensures |t| > 0 && t[|t| - 1] == k
    ensures forall x :: x in t <==> x in s || x == k
  {
    Without(s, k) + [k]
  }

  /** After `move_to_end(k)` the key `k` is the most recent one, the key set
      is unchanged and all other keys keep their relative order. */
  lemma MoveToEndSpec<K(!new)>(s: seq<K>, k: K)
    requires k in s
    ensures var t := MoveToEnd(s, k);
      && |t| > 0 && t[|t| - 1] == k
      && (forall x :: x in t <==> x in s)
      && Without(t, k) == Without(s, k)
      && (NoDup(s) ==> NoDup(t) && |t| == |s|)
  {
    var t := MoveToEnd(s, k);
    WithoutDropsLast(Without(s, k), k);
    assert Without([k], k) == [];
    if NoDup(s) {
      DistinctCard(s);
      DistinctCard(Without(s, k));
      assert Elems(s) == Elems(Without(s, k)) + {k};
      assert k !in Elems(Without(s, k));
    }
  }

  /** Moving the most recent key to the end changes nothing. */
  lemma MoveToEndOfNewest<K(!new)>(s: seq<K>, k: K)
    requires k !in s
    ensures MoveToEnd(s + [k], k) == s + [k]
  {
    WithoutDropsLast(s, k);
  }

  // ---------------------------------------------------------------------
  // The cache as a value

  /** The state closed over by one `wrapper`: the dictionary, its key order
      (least recently used first) and how often the wrapped callable ran. */
  datatype Cache<K, V> = Cache(entries: map<K, V>, order: seq<K>, invocations: nat)

  /** What one call of `wrapper` leaves behind and what it produces. */
  datatype Reply<K, V> = Reply(cache: Cache<K, V>, result: Outcome<V>)

  /** How many entries a cache with this `maxsize` may hold. */
  function Capacity(maxsize: int): nat
  {
    if maxsize < 0 then 0 else maxsize
  }

  /** The invariant of the dictionary: the order lists each key once, exactly
      the keys of the map, and a bounded cache is within its bound. */
  ghost predicate WellFormed<K(!new), V>(c: Cache<K, V>, maxsize: Option<int>)
  {
    && NoDup(c.order)
    && (forall k :: k in c.entries <==> k in c.order)
    && (maxsize.Some? ==> |c.order| <= Capacity(maxsize.value))
  }

  /** The dictionary holds exactly as many entries as the order lists keys. */
  lemma EntriesMatchOrder<K(!new), V>(c: Cache<K, V>, maxsize: Option<int>)
    requires WellFormed(c, maxsize)
    ensures |c.entries| == |c.order|
  {
    assert c.entries.Keys == Elems(c.order);
    DistinctCard(c.order);
  }

  /** `popitem(last=False)`: drops the least recently used entry. */
  function PopOldest<K(==,!new), V>(c: Cache<K, V>): (d: Cache<K, V>)
    requires c.order != []
    ensures forall k :: k in d.entries <==> k in c.entries && k != c.order[0]
    ensures forall k :: k in d.entries ==> d.entries[k] == c.entries[k]
    ensures d.order == c.order[1..] && d.invocations == c.invocations
  {
    c.(entries := c.entries - {c.order[0]}, order := c.order[1..])
  }

  /** Dropping the oldest entry keeps the dictionary and its order in step,
      removes exactly that key, and shortens the order by one. */
  lemma PopOldestSpec<K(!new), V>(c: Cache<K, V>, maxsize: Option<int>)
    requires WellFormed(c, maxsize) && c.order != []
    ensures var d := PopOldest(c);
      && NoDup(d.order)
      && (forall k :: k in d.entries <==> k in d.order)
      && c.order[0] !in d.order
      && (forall k :: k in d.order ==> k in c.order)
      && |d.order| == |c.order| - 1
  {
    HeadNotInTail(c.order);
    var d := PopOldest(c);
    forall k | k in c.order && k != c.order[0]
      ensures k in d.order
    {
      var j :| 0 <= j < |c.order| && c.order[j] == k;
      assert d.order[j - 1] == k;
    }
  }

  /** Whether a miss finds the dictionary at (or beyond) `maxsize`. */
  predicate Full<K(==,!new), V>(c: Cache<K, V>, maxsize: Option<int>)
  {
    maxsize.Some? && |c.entries| >= maxsize.value
  }

  /** One call of `wrapper` with call key `key`. A hit answers from the
      dictionary without calling `func`; `func` runs at most once, only on a
      miss, and its outcome is then the result; a returned value is left in
      the dictionary under `key`, and no other key is ever added. */
  function Step<K(==,!new), V>(c: Cache<K, V>, maxsize: Option<int>, func: (K, nat) -> Outcome<V>, key: K): (r: Reply<K, V>)
    ensures key in c.entries ==>
      r.result == Return(c.entries[key]) && r.cache.entries == c.entries && r.cache.invocations == c.invocations
    ensures r.cache.invocations <= c.invocations + 1
    ensures r.cache.invocations == c.invocations + 1 ==> key !in c.entries && r.result == func(key, c.invocations)
    ensures r.result.Return? ==> key in r.cache.entries && r.cache.entries[key] == r.result.value
    ensures forall k :: k in r.cache.entries ==> k in c.entries || k == key
  {
    if key in c.entries then
      Reply(c.(order := MoveToEnd(c.order, key)), Return(c.entries[key]))
    else if Full(c, maxsize) && c.order == [] then
      // popitem on an empty dictionary raises KeyError
      Reply(c, Raise(KeyError))
    else
      var room := if Full(c, maxsize) then PopOldest(c) else c;
      var out := func(key, c.invocations);
      var called := room.(invocations := c.invocations + 1);
      if out.Return? then
        Reply(called.(entries := called.entries[key := out.value], order := called.order + [key]), out)
      else
        Reply(called, out)
  }

  /** Every call keeps the invariant, so the cache never holds more than
      `maxsize` entries after any call. */
  lemma StepKeepsWellFormed<K(!new), V>(c: Cache<K, V>, maxsize: Option<int>, func: (K, nat) -> Outcome<V>, key: K)
    requires WellFormed(c, maxsize)
    ensures WellFormed(Step(c, maxsize, func, key).cache, maxsize)
  {
    var r := Step(c, maxsize, func, key);
    EntriesMatchOrder(c, maxsize);
    if key in c.entries {
      MoveToEndSpec(c.order, key);
    } else if Full(c, maxsize) && c.order == [] {
    } else {
      var room := if Full(c, maxsize) then PopOldest(c) else c;
      if Full(c, maxsize) {
        PopOldestSpec(c, maxsize);
      }
      assert maxsize.Some? ==> |room.order| + 1 <= Capacity(maxsize.value);
      AppendFresh(room.order, key);
    }
  }

  /** With `maxsize = m`, a cache that kept its invariant holds at most `m`
      entries, and none at all when `m <= 0`. */
  lemma {:induction false} SizeWithinMaxsize<K(!new), V>(c: Cache<K, V>, m: int)
    requires WellFormed(c, Some(m))
    ensures m >= 1 ==> |c.entries| <= m
    ensures m <= 0 ==> c.entries == map[]
  {
    EntriesMatchOrder(c, Some(m));
  }

  /** A hit returns the stored result without calling the wrapped function,
      keeps the stored entries, and makes the key the most recent one while
      the other keys keep their relative order. */
  lemma HitSpec<K(!new), V>(c: Cache<K, V>, maxsize: Option<int>, func: (K, nat) -> Outcome<V>, key: K)
    requires WellFormed(c, maxsize)
    requires key in c.entries
    ensures var r := Step(c, maxsize, func, key);
      && r.result == Return(c.entries[key])
      && r.cache.invocations == c.invocations
      && r.cache.entries == c.entries
      && |r.cache.order| > 0 && r.cache.order[|r.cache.order| - 1] == key
      && Without(r.cache.order, key) == Without(c.order, key)
  {
    MoveToEndSpec(c.order, key);
  }

  /** A miss that does not fail calls the wrapped function exactly once and
      returns its outcome; a returned value is stored as the most recent
      entry. */
  lemma MissSpec<K(!new), V>(c: Cache<K, V>, maxsize: Option<int>, func: (K, nat) -> Outcome<V>, key: K)
    requires WellFormed(c, maxsize)
    requires key !in c.entries
    requires !Full(c, maxsize) || c.order != []
    ensures var r := Step(c, maxsize, func, key);
      && r.cache.invocations == c.invocations + 1
      && r.result == func(key, c.invocations)
      && (r.result.Return? ==>
            && key in r.cache.entries && r.cache.entries[key] == r.result.value
            && |r.cache.order| > 0 && r.cache.order[|r.cache.order| - 1] == key)
      && (r.result.Raise? ==> key !in r.cache.entries)
  {
  }

  /** A miss on a full cache with `maxsize >= 1` removes exactly the least
      recently used entry, before the wrapped function runs (so even when it
      raises); every other entry keeps its value and its place in the order. */
  lemma EvictionSpec<K(!new), V>(c: Cache<K, V>, m: int, func: (K, nat) -> Outcome<V>, key: K)
    requires WellFormed(c, Some(m))
    requires m >= 1 && key !in c.entries && |c.entries| >= m
    ensures c.order != []
    ensures var r := Step(c, Some(m), func, key); var lru := c.order[0];
      && lru !in r.cache.entries
      && (forall k :: k in c.entries && k != lru ==> k in r.cache.entries && r.cache.entries[k] == c.entries[k])
      && r.cache.order == c.order[1..] + (if r.result.Return? then [key] else [])
  {
    EntriesMatchOrder(c, Some(m));
    HeadNotInTail(c.order);
  }

  /** A call on a cache that is not full removes nothing. On a miss the
      other keys keep their recency order, the new key (if its value was
      returned) becoming the newest, and a raising call stores nothing. */
  lemma NoEvictionBelowMaxsize<K(!new), V>(c: Cache<K, V>, maxsize: Option<int>, func: (K, nat) -> Outcome<V>, key: K)
    requires WellFormed(c, maxsize)
    requires !Full(c, maxsize)
    ensures var r := Step(c, maxsize, func, key);
      forall k :: k in c.entries ==> k in r.cache.entries && r.cache.entries[k] == c.entries[k]
    ensures var r := Step(c, maxsize, func, key);
      key !in c.entries ==> r.cache.order == c.order + (if r.result.Return? then [key] else [])
    ensures var r := Step(c, maxsize, func, key);
      key !in c.entries && r.result.Raise? ==> r.cache.entries == c.entries
  {
  }

  /** With `maxsize=None` nothing is ever evicted. */
  lemma UnboundedNeverEvicts<K(!new), V>(c: Cache<K, V>, func: (K, nat) -> Outcome<V>, key: K)
    requires WellFormed(c, None)
    ensures var r := Step(c, None, func, key);
      forall k :: k in c.entries ==> k in r.cache.entries && r.cache.entries[k] == c.entries[k]
  {
    NoEvictionBelowMaxsize(c, None, func, key);
  }

  /** With `maxsize <= 0` every call fails with KeyError from `popitem` on the
      (necessarily empty) dictionary, without calling the wrapped function. */
  lemma NonPositiveMaxsizeFails<K(!new), V>(c: Cache<K, V>, m: int, func: (K, nat) -> Outcome<V>, key: K)
    requires WellFormed(c, Some(m))
    requires m <= 0
    ensures Step(c, Some(m), func, key) == Reply(c, Raise(KeyError))
  {
    SizeWithinMaxsize(c, m);
  }

  // ---------------------------------------------------------------------
  // The wrapper, updated in place

  /** A function decorated by `lru_cache(maxsize=...)`: the captured
      `OrderedDict` and the wrapped callable. */
  class LruWrapper<K(==,!new), V> {
    const maxsize: Option<int>
    const func: (K, nat) -> Outcome<V>
    var entries: map<K, V>
    var order: seq<K>
    var invocations: nat

    ghost function State(): Cache<K, V>
      reads this
    {
      Cache(entries, order, invocations)
    }

    ghost predicate Valid()
      reads this
    {
      WellFormed(State(), maxsize)
    }

    /** `decorator(func)`: every decorated function gets its own, empty cache. */
    constructor (maxsize: Option<int>, func: (K, nat) -> Outcome<V>)
      ensures Valid()
      ensures this.maxsize == maxsize && this.func == func
      ensures entries == map[] && order == [] && invocations == 0
    {
      this.maxsize := maxsize;
      this.func := func;
      entries := map[];
      order := [];
      invocations := 0;
    }

    /** `wrapper(*args, **kwargs)` for the call whose key is `key`. */
    method Call(key: K) returns (r: Outcome<V>)
      requires Valid()
      modifies this
      ensures Valid()
      ensures Reply(State(), r) == Step(old(State()), maxsize, func, key)
    {
      StepKeepsWellFormed(State(), maxsize, func, key);
      if key in entries {
        r := Hit(key);
      } else {
        r := Miss(key);
      }
    }

    /** The cached branch: the stored result, the key moved to the end. */
    method Hit(key: K) returns (r: Outcome<V>)
      requires key in entries
      modifies this
      ensures Reply(State(), r) == Step(old(State()), maxsize, func, key)
    {
      r := Return(entries[key]);
      order := MoveToEnd(order, key);
    }

    /** The uncached branch: make room when full, call the function, store
        a returned value as the newest entry. */
    method Miss(key: K) returns (r: Outcome<V>)
      requires key !in entries
      modifies this
      ensures Reply(State(), r) == Step(old(State()), maxsize, func, key)
    {
      if maxsize.Some? && |entries| >= maxsize.value {
        if order == [] {
          r := Raise(KeyError);
          return;
        }
        entries := entries - {order[0]};
        order := order[1..];
      }
      r := func(key, invocations);
      invocations := invocations + 1;
      if r.Return? {
        entries := entries[key := r.value];
        order := order + [key];
      }
    }
  }

  // ---------------------------------------------------------------------
  // The call trace at the end of module1/cache_decorator.py

  /** A mock whose `side_effect` is `effects`: its n-th call returns the n-th
      effect and raises StopIteration once they are used up. */
  function Mock<K(==,!new), V>(effects: seq<V>): (m: (K, nat) -> Outcome<V>)
    ensures forall k: K, n: nat :: n < |effects| ==> m(k, n) == Return(effects[n])
    ensures forall k: K, n: nat :: n >= |effects| ==> m(k, n) == Raise(StopIteration)
  {
    (key: K, n: nat) => if n < |effects| then Return(effects[n]) else Raise(StopIteration)
  }

  /** The keys of the calls `decorated(1, 2)`, `decorated(3, 4)` and
      `decorated(5, 6)`, and the mock with side effects 1, 2, 3, 4. */
  const Key12: CallKey<int> := CallKey([1, 2], {})
  const Key34: CallKey<int> := CallKey([3, 4], {})
  const Key56: CallKey<int> := CallKey([5, 6], {})
  const Mocked: (CallKey<int>, nat) -> Outcome<int> := Mock([1, 2, 3, 4])

  /** The caches the trace passes through, with `maxsize=2`. */
  const After1: Cache<CallKey<int>, int> := Cache(map[Key12 := 1], [Key12], 1)
  const After3: Cache<CallKey<int>, int> := Cache(map[Key12 := 1, Key34 := 2], [Key12, Key34], 2)
  const After5: Cache<CallKey<int>, int> := Cache(map[Key34 := 2, Key56 := 3], [Key34, Key56], 3)
  const After7: Cache<CallKey<int>, int> := Cache(map[Key56 := 3, Key12 := 4], [Key56, Key12], 4)

  lemma DistinctTraceKeys()
    ensures Key12 != Key34 && Key12 != Key56 && Key34 != Key56
  {
    assert Key12.args[0] == 1 && Key34.args[0] == 3 && Key56.args[0] == 5;
  }

  /** The first four calls: two misses that fill the cache, each followed by
      a hit on the key just stored. */
  lemma MockTraceFirstCalls()
    ensures Step(Cache(map[], [], 0), Some(2), Mocked, Key12) == Reply(After1, Return(1))
    ensures Step(After1, Some(2), Mocked, Key12) == Reply(After1, Return(1))
    ensures Step(After1, Some(2), Mocked, Key34) == Reply(After3, Return(2))
    ensures Step(After3, Some(2), Mocked, Key34) == Reply(After3, Return(2))
  {
    DistinctTraceKeys();
    MoveToEndOfNewest([], Key12);
    MoveToEndOfNewest([Key12], Key34);
  }

  /** The last three calls: (5, 6) evicts (1, 2), is hit once, and (1, 2)
      then misses again and evicts (3, 4). */
  lemma MockTraceFifthCall()
    ensures Step(After3, Some(2), Mocked, Key56) == Reply(After5, Return(3))
  {
    DistinctTraceKeys();
    assert map[Key12 := 1, Key34 := 2] - {Key12} == map[Key34 := 2];
  }

  lemma MockTraceSixthCall()
    ensures Step(After5, Some(2), Mocked, Key56) == Reply(After5, Return(3))
  {
    DistinctTraceKeys();
    MoveToEndOfNewest([Key34], Key56);
  }

  lemma MockTraceSeventhCall()
    ensures Step(After5, Some(2), Mocked, Key12) == Reply(After7, Return(4))
  {
    DistinctTraceKeys();
    assert map[Key34 := 2, Key56 := 3] - {Key34} == map[Key56 := 3];
  }

  /** `lru_cache(maxsize=2)(mock)` called with (1, 2), (1, 2), (3, 4), (3, 4),
      (5, 6), (5, 6), (1, 2): the results, the mock's call count, and
      whether (1, 2) was evicted when (5, 6) was inserted. */
  method MockTrace() returns (results: seq<Outcome<int>>, callCount: nat, firstEvicted: bool)
    ensures results == [Return(1), Return(1), Return(2), Return(2), Return(3), Return(3), Return(4)]
    ensures callCount == 4
    ensures firstEvicted
  {
    MockTraceFirstCalls();
    MockTraceFifthCall();
    MockTraceSixthCall();
    MockTraceSeventhCall();
    var decorated := new LruWrapper(Some(2), Mocked);
    var k12, k34, k56 := MakeKey([1, 2], []), MakeKey([3, 4], []), MakeKey([5, 6], []);
    assert k12 == Key12 && k34 == Key34 && k56 == Key56;
    var r1 := decorated.Call(k12);
    assert decorated.State() == After1;
    var r2 := decorated.Call(k12);
    assert decorated.State() == After1;
    var r3 := decorated.Call(k34);
    assert decorated.State() == After3;
    var r4 := decorated.Call(k34);
    assert decorated.State() == After3;
    var r5 := decorated.Call(k56);
    assert decorated.State() == After5;
    firstEvicted := k12 !in decorated.entries;
    var r6 := decorated.Call(k56);
    assert decorated.State() == After5;
    var r7 := decorated.Call(k12);
    assert decorated.State() == After7;
    results := [r1, r2, r3, r4, r5, r6, r7];
    callCount := decorated.invocations;
  }
}
