/**
 * The memoising wrapper that three of the tutorials write as a closure over a
 * dictionary: `memoize` in the functions tutorial, `cache` in the decorator
 * guide (keyed on positional and sorted keyword arguments) and `cache` in the
 * short decorator example (keyed on the argument tuple). The wrapped function
 * is `func`; the arguments `func` has been run on are kept in the ghost log
 * `computed`.
 */
module Caching {

  class Memo<K(==), V> {
    const func: K -> V
    var cache: map<K, V>
    /** The keys `func` was run on since creation or the last `Clear`, in call order. */
    ghost var computed: seq<K>

    /**
     * Every stored value is what `func` gives for its key, the stored keys are
     * exactly the keys `func` was run on, and no key was run twice.
     */
    ghost predicate Valid()
      reads this
    {
      && (forall k :: k in cache ==> cache[k] == func(k))
      && (forall k :: k in cache ==> k in computed)
      && (forall i :: 0 <= i < |computed| ==> computed[i] in cache)
      && (forall i, j :: 0 <= i < j < |computed| ==> computed[i] != computed[j])
    }

    constructor (func: K -> V)
      ensures Valid()
      ensures this.func == func && cache == map[] && computed == []
    {
      this.func := func;
      cache := map[];
      computed := [];
    }

    /**
     * The wrapper: a stored key answers from the cache without running
     * `func`; a new key runs `func` once and stores the result.
     */
    method Call(key: K) returns (r: V)
      requires Valid()
      modifies this
      ensures Valid()
      ensures r == func(key)
      ensures key in old(cache) ==> r == old(cache)[key] && cache == old(cache) && computed == old(computed)
      ensures key !in old(cache) ==> cache == old(cache)[key := r] && computed == old(computed) + [key]
    {
      if key in cache {
        r := cache[key];
      } else {
        r := func(key);
        cache := cache[key := r];
        computed := computed + [key];
      }
    }

    /** `clear_cache()`: forget every stored value. */
    method Clear()
      requires Valid()
      modifies this
      ensures Valid()
      ensures cache == map[] && computed == []
    {
      cache := map[];
      computed := [];
    }
  }

  /** `long_running_function(a, b)` without its four-second sleep. */
  function LongRunningFunction(args: (int, int)): int {
    args.0 + args.1
  }

  /**
   * The short decorator example's run: the cached `long_running_function`
   * called twice with the same arguments answers `a + b` both times and runs
   * the function only once.
   */
  method CachedTwice(a: int, b: int) returns (first: int, second: int, ghost runs: seq<(int, int)>)
    ensures first == a + b && second == a + b
    ensures runs == [(a, b)]
  {
    var wrapped := new Memo(LongRunningFunction);
    first := wrapped.Call((a, b));
    second := wrapped.Call((a, b));
    runs := wrapped.computed;
  }
}
