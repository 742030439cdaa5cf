/** Project01/Caches/GenericCache.cs: a map from query to a shared list with a single
    always-replace insert. The time-to-live is stored and never read; no timer is created. */
module GenericCaches {
  import opened Models

  class GenericCache<T> {
    var cache: map<string, ListRef<T>>
    const timeToLive: int

    constructor (ttl: int)
      ensures cache == map[] && timeToLive == ttl
    {
      cache := map[];
      timeToLive := ttl;
    }

    /** `AddOrUpdate(key, values, (key, existing) => values)`: the old list, if any, is
        dropped without being compared. Nothing is ever removed. */
    method AddToCache(key: string, values: ListRef<T>)
      modifies this
      ensures cache == old(cache)[key := values]
      ensures old(cache).Keys <= cache.Keys
    {
      cache := cache[key := values];
    }
  }

  /** Two `AddToCache(key, values)` calls leave the same map as one. */
  lemma AddToCacheIdempotent<T>(m: map<string, ListRef<T>>, key: string, values: ListRef<T>)
    ensures m[key := values][key := values] == m[key := values]
  {
  }
}
