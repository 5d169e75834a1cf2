/** The server's bounded key-value cache (`packages/server/src/utils/cache.ts`):
    a `Map` from string keys to values with a limit; `set` on a full cache
    first deletes the key inserted earliest (first in, first out, not least
    recently used). The request handler in `packages/server/src/index.ts`
    never creates one. */
module ServerCache {
  import opened Wrappers
  import opened Sequences
  import opened InsertionOrder

  const DEFAULT_LIMIT: int := 100

  /** `limit || 100`: an absent limit and a limit of 0 (both falsy) fall back to
      100, every other limit is kept, negative ones included. */
  function EffectiveLimit(limit: Option<int>): (l: int)
    ensures l != 0
    ensures limit.None? ==> l == DEFAULT_LIMIT
    ensures limit.Some? ==> l == if limit.value == 0 then DEFAULT_LIMIT else limit.value
  {
    if limit.None? || limit.value == 0 then DEFAULT_LIMIT else limit.value
  }

  /** The most entries a cache with this limit can hold: the limit itself, or a
      single entry when the limit is negative (`set` then evicts on every call
      but always inserts afterwards). */
  function Capacity(limit: int): (c: nat)
    ensures limit > 0 ==> c == limit
    ensures limit <= 0 ==> c == 1
  {
    if limit > 0 then limit else 1
  }

  /** The eviction step of `set`: once the size has reached the limit, the key
      first in insertion order is deleted. On an empty store there is no such
      key and `delete(undefined)` changes nothing. */
  function Evict<T>(store: OrderedMap<T>, limit: int): (r: OrderedMap<T>)
    requires store.Valid()
    ensures r.Valid()
  {
    if store.Size() >= limit && store.Size() > 0 then store.Delete(store.keys[0]) else store
  }

  /** The store after `set(key, value)`: eviction, then `Map.set`. */
  function CacheSet<T>(store: OrderedMap<T>, limit: int, key: string, value: T): (r: OrderedMap<T>)
    requires store.Valid()
    ensures r.Valid()
    ensures r.Get(key) == Some(value)
  {
    Evict(store, limit).Set(key, value)
  }

  /** When the size has reached the limit, eviction deletes exactly the first
      key: the order loses its head and nothing else changes. */
  lemma EvictRemovesOldest<T>(store: OrderedMap<T>, limit: int)
    requires store.Valid()
    requires store.Size() >= limit && store.Size() > 0
    ensures Evict(store, limit).keys == store.keys[1..]
    ensures Evict(store, limit).Get(store.keys[0]) == None
    ensures forall k | k != store.keys[0] :: Evict(store, limit).Get(k) == store.Get(k)
  {
    WithoutAt(store.keys, 0);
  }

  /** `set` never lets the size exceed the capacity: if `size <= limit` holds
      before, it holds after (a negative limit keeps at most one entry). */
  lemma SetKeepsCapacity<T>(store: OrderedMap<T>, limit: int, key: string, value: T)
    requires store.Valid()
    requires store.Size() <= Capacity(limit)
    ensures CacheSet(store, limit, key, value).Size() <= Capacity(limit)
  {
    if store.Size() >= limit && store.Size() > 0 {
      EvictRemovesOldest(store, limit);
    }
  }

  /** Below the limit `set` evicts nothing: every other key keeps its value and
      the order only grows by the new key at the end, if it is new. */
  lemma SetBelowLimit<T>(store: OrderedMap<T>, limit: int, key: string, value: T)
    requires store.Valid()
    requires store.Size() < limit
    ensures forall k | k != key :: CacheSet(store, limit, key, value).Get(k) == store.Get(k)
    ensures CacheSet(store, limit, key, value).keys
            == if key in store.keys then store.keys else store.keys + [key]
  {
  }

  /** Setting a key that is already present while the cache is full still
      evicts the oldest key. When the present key is not the oldest one, the
      cache shrinks to `limit - 1` entries and the key keeps its position;
      when it is the oldest one, it is deleted and re-inserted last. */
  lemma ResetWhileFull<T>(store: OrderedMap<T>, limit: int, key: string, value: T)
    requires store.Valid()
    requires limit <= store.Size()
    requires key in store.keys
    ensures key != store.keys[0] ==>
              CacheSet(store, limit, key, value).keys == store.keys[1..]
              && CacheSet(store, limit, key, value).Size() == store.Size() - 1
              && CacheSet(store, limit, key, value).Get(store.keys[0]) == None
    ensures key == store.keys[0] ==>
              CacheSet(store, limit, key, value).keys == store.keys[1..] + [key]
              && CacheSet(store, limit, key, value).Size() == store.Size()
  {
    EvictRemovesOldest(store, limit);
    var evicted := Evict(store, limit);
    if key != store.keys[0] {
      assert key in evicted.keys by {
        var i := IndexOf(store.keys, key);
        assert i > 0;
        assert store.keys[1..][i - 1] == key;
      }
      assert key in evicted.entries;
    } else {
      assert key !in evicted.entries;
    }
  }

  /** With limit 2, setting A, B and C leaves B and C, in that order. */
  lemma EvictionOrderExample(v: int)
    ensures CacheSet(CacheSet(CacheSet(Empty<int>(), 2, "A", v), 2, "B", v), 2, "C", v).keys == ["B", "C"]
  {
    var s1 := CacheSet(Empty<int>(), 2, "A", v);
    assert s1.keys == ["A"];
    var s2 := CacheSet(s1, 2, "B", v);
    assert s2.keys == ["A", "B"];
    EvictRemovesOldest(s2, 2);
    assert Evict(s2, 2).keys == ["B"];
  }

  class Cache<T> {
    var limit: int
    var store: OrderedMap<T>

    ghost predicate Valid()
      reads this
    {
      limit != 0 && store.Valid() && store.Size() <= Capacity(limit)
    }

    /** `new Cache(limit)`: an empty store with the effective limit. */
    constructor (limit: Option<int>)
      ensures Valid()
      ensures this.limit == EffectiveLimit(limit)
      ensures store == Empty()
    {
      this.limit := EffectiveLimit(limit);
      store := Empty();
    }

    /** `has(key)`: whether the key has an entry; the cache is left as it was. */
    method Has(key: string) returns (b: bool)
      requires Valid()
      ensures b <==> key in store.keys
    {
      b := key in store.entries;
    }

    /** `get(key)`: the key's value, or no value for an absent key; the cache is
        left as it was. */
    method Get(key: string) returns (r: Option<T>)
      requires Valid()
      ensures key in store.keys ==> r == Some(store.entries[key])
      ensures key !in store.keys ==> r == None
    {
      r := store.Get(key);
    }

    /** `set(key, value)`: delete the oldest key when the size has reached the
        limit, then `Map.set`. */
    method Set(key: string, value: T)
      requires Valid()
      modifies this
      ensures Valid()
      ensures limit == old(limit)
      ensures store == CacheSet(old(store), limit, key, value)
      ensures store.Get(key) == Some(value)
    {
      SetKeepsCapacity(store, limit, key, value);
      if store.Size() >= limit {
        if store.Size() > 0 {
          var oldestKey := store.keys[0];
          store := store.Delete(oldestKey);
        }
      }
      store := store.Set(key, value);
    }
  }

  /** A client of the class: the limit-2 scenario as a sequence of calls. */
  method EvictionScenario() returns (hasA: bool, b: Option<int>, c: Option<int>)
    ensures !hasA && b == Some(2) && c == Some(3)
  {
    var cache := new Cache<int>(Some(2));
    cache.Set("A", 1);
    cache.Set("B", 2);
    cache.Set("C", 3);
    EvictionOrderExample(0);
    hasA := cache.Has("A");
    b := cache.Get("B");
    c := cache.Get("C");
    assert cache.store.keys == ["B", "C"];
    assert !hasA && b == Some(2) && c == Some(3);
  }
}
