/**
 * The closures with state of the functions tutorial: the counter of
 * `create_counter`, the memoised Fibonacci built with `memoize`, and the
 * configuration object of `build_config`.
 */
module Closures {
  import opened Functions

  // ----- create_counter -----

  /** `create_counter(start)`: the one-element list `count` becomes the field `count`. */
  class Counter {
    const start: int
    var count: int
    /** Calls of the counter since creation or the last reset. */
    ghost var calls: nat

    ghost predicate Valid()
      reads this
    {
      count == start + calls
    }

    constructor (start: int)
      ensures Valid()
      ensures this.start == start && calls == 0
    {
      this.start := start;
      count := start;
      calls := 0;
    }

    /** `counter()`: the k-th call since creation or reset answers `start + k`. */
    method Next() returns (v: int)
      requires Valid()
      modifies this
      ensures Valid()
      ensures calls == old(calls) + 1
      ensures v == start + calls && count == v
    {
      count := count + 1;
      calls := calls + 1;
      v := count;
    }

    /** `counter.reset()`: back to `start`. */
    method Reset()
      requires Valid()
      modifies this
      ensures Valid()
      ensures calls == 0 && count == start
    {
      count := start;
      calls := 0;
    }
  }

  /**
   * The tutorial's run: counter1 from 0 answers 1, 2, 3, counter2 from 10
   * answers 11, 12, and counter1 after its reset answers 1 again.
   */
  method CounterScenario() returns (answers: seq<int>)
    ensures answers == [1, 2, 3, 11, 12, 1]
  {
    var counter1 := new Counter(0);
    var counter2 := new Counter(10);
    var a := counter1.Next();
    var b := counter1.Next();
    var c := counter1.Next();
    var d := counter2.Next();
    var e := counter2.Next();
    counter1.Reset();
    var f := counter1.Next();
    answers := [a, b, c, d, e, f];
  }

  // ----- memoize applied to the recursive fibonacci -----

  /** The integers 0..n. */
  ghost function UpTo(n: int): (s: set<int>)
    ensures forall j :: j in s <==> 0 <= j <= n
  {
    if n < 0 then {} else UpTo(n - 1) + {n}
  }

  /** The arguments the two recursive calls inside `expensive_fibonacci(n)` store: 0..n-1 from 2 up. */
  ghost function Below(n: int): set<int> {
    if n >= 2 then UpTo(n - 1) else {}
  }

  /** The arguments one call of the memoised Fibonacci stores: 0..n, or n alone below 2. */
  ghost function Reached(n: int): set<int> {
    Below(n) + {n}
  }

  lemma BelowStep(n: int)
    requires n >= 2
    ensures Below(n) == Reached(n - 1) + Reached(n - 2)
    ensures n !in Below(n)
  {
  }

  /** The two recursive calls store `Below(n)` and leave `n` itself unstored. */
  lemma RecursionStoresBelow(keys0: set<int>, keys1: set<int>, keys2: set<int>, n: int)
    requires n >= 2 && n !in keys0
    requires keys1 == keys0 + Reached(n - 1)
    requires keys2 == keys1 + Reached(n - 2)
    ensures keys2 == keys0 + Below(n) && n !in keys2
  {
    BelowStep(n);
  }

  /**
   * The state of the memoised Fibonacci: every stored value is the Fibonacci
   * number of its key, a stored key from 2 up comes with all smaller
   * non-negative keys, and the stored keys are exactly the arguments computed,
   * none computed twice.
   */
  ghost predicate MemoState(cache: map<int, int>, computed: seq<int>) {
    && (forall k :: k in cache ==> cache[k] == Fibonacci(k))
    && (forall k, j :: k in cache && k >= 2 && 0 <= j <= k ==> j in cache)
    && (forall k :: k in cache ==> k in computed)
    && (forall i :: 0 <= i < |computed| ==> computed[i] in cache)
    && (forall i, j :: 0 <= i < j < |computed| ==> computed[i] != computed[j])
  }

  lemma StoreKeepsMemoState(cache: map<int, int>, computed: seq<int>, n: int, r: int)
    requires MemoState(cache, computed)
    requires n !in cache && r == Fibonacci(n)
    requires n >= 2 ==> forall j :: 0 <= j < n ==> j in cache
    ensures MemoState(cache[n := r], computed + [n])
  {
    var c', comp' := cache[n := r], computed + [n];
    forall i, j | 0 <= i < j < |comp'|
      ensures comp'[i] != comp'[j]
    {
      if j == |computed| {
        assert comp'[i] == computed[i] && computed[i] in cache;
      }
    }
    forall k, j | k in c' && k >= 2 && 0 <= j <= k
      ensures j in c'
    {
      if k != n {
        assert k in cache;
      }
    }
  }

  lemma CachedKeyReached(cache: map<int, int>, computed: seq<int>, n: int)
    requires MemoState(cache, computed)
    requires n in cache
    ensures cache.Keys + Reached(n) == cache.Keys
  {
    forall j | j in Reached(n)
      ensures j in cache
    {
    }
  }

  /**
   * `memoize(expensive_fibonacci)`: the recursive calls inside the body go
   * through the wrapper, so every argument is computed once and then served
   * from `cache`.
   */
  class FibonacciMemo {
    var cache: map<int, int>
    /** The arguments computed (not served from the cache), in order. */
    ghost var computed: seq<int>

    ghost predicate Valid()
      reads this
    {
      MemoState(cache, computed)
    }

    constructor ()
      ensures Valid()
      ensures cache == map[] && computed == []
    {
      cache := map[];
      computed := [];
    }

    /**
     * `memoized_func(n)`: a cached argument is answered from `cache`; any
     * other is computed by the body and then stored. The result agrees with
     * the plain `fibonacci`.
     */
    method Fib(n: int) returns (r: int)
      requires Valid()
      modifies this
      ensures Valid()
      ensures r == Fibonacci(n)
      ensures cache.Keys == old(cache.Keys) + Reached(n)
      ensures n in old(cache) ==> cache == old(cache) && computed == old(computed)
      decreases n, 1
    {
      if n in cache {
        CachedKeyReached(cache, computed, n);
        r := cache[n];
        return;
      }
      r := Compute(n);
      assert n >= 2 ==> forall j :: 0 <= j < n ==> j in cache by {
        if n >= 2 {
          forall j | 0 <= j < n
            ensures j in cache
          {
            assert j in Below(n);
          }
        }
      }
      StoreKeepsMemoState(cache, computed, n, r);
      cache := cache[n := r];
      computed := computed + [n];
    }

    /**
     * The body of `expensive_fibonacci(n)` for an argument not yet stored:
     * below 2 it answers `n`; otherwise its two recursive calls go through
     * the wrapper and store `Below(n)`, never `n` itself.
     */
    method Compute(n: int) returns (r: int)
      requires Valid() && n !in cache
      modifies this
      ensures Valid() && n !in cache
      ensures r == Fibonacci(n)
      ensures cache.Keys == old(cache.Keys) + Below(n)
      decreases n, 0
    {
      if n <= 1 {
        r := n;
      } else {
        ghost var keys0 := cache.Keys;
        var a := Fib(n - 1);
        ghost var keys1 := cache.Keys;
        var b := Fib(n - 2);
        r := a + b;
        RecursionStoresBelow(keys0, keys1, cache.Keys, n);
      }
    }
  }

  /** `expensive_fibonacci(10)` from an empty cache: 55, with the arguments 0..10 stored. */
  method MemoFibonacciTen() returns (r: int, keys: set<int>)
    ensures r == 55
    ensures keys == UpTo(10)
  {
    var memo := new FibonacciMemo();
    r := memo.Fib(10);
    keys := memo.cache.Keys;
  }

  // ----- build_config -----

  /** The closures `build_config(**base_config)` builds, called directly. */
  class Config<V> {
    var data: map<string, V>

    constructor (base: map<string, V>)
      ensures data == base
    {
      data := base;
    }

    /**
     * `override(**new_config)`: a copy of the base updated with the new
     * entries; the base itself is left as it was.
     */
    method Override(newConfig: map<string, V>) returns (merged: map<string, V>)
      ensures merged.Keys == data.Keys + newConfig.Keys
      ensures forall k :: k in newConfig ==> merged[k] == newConfig[k]
      ensures forall k :: k in data && k !in newConfig ==> merged[k] == data[k]
    {
      merged := data;
      merged := merged + newConfig;
    }

    /** `get(key, default)` */
    function Get(key: string, default: V): (r: V)
      reads this
      ensures key in data ==> r == data[key]
      ensures key !in data ==> r == default
    {
      if key in data then data[key] else default
    }
  }
}
