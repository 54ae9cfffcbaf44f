/** The cache kept in a private `Map` of the `InMemoryCache` class. */
module InMemoryCacheModule {
  import opened Wrappers
  import opened CacheSpec

  class InMemoryCache {
    /** The private `cache` map. */
    var cache: Store

    constructor ()
      ensures cache == map[]
    {
      cache := map[];
    }

    /** `get(key)`: reads the map and changes nothing. */
    method Get(key: string) returns (value: Option<string>)
      ensures value == Lookup(cache, key)
      ensures value.Some? <==> key in cache
    {
      if key in cache {
        value := Some(cache[key]);
      } else {
        value := None;
      }
    }

    /** `set(key, value)`: `Map.set` replaces the entry for `key`. */
    method Set(key: string, value: string)
      modifies this
      ensures cache == Apply(old(cache), Put(key, value))
      ensures Lookup(cache, key) == Some(value)
      ensures forall k :: k != key ==> Lookup(cache, k) == Lookup(old(cache), k)
    {
      cache := cache[key := value];
    }

    /** `remove(key)`: `Map.delete` drops the entry for `key`, if any. */
    method Remove(key: string)
      modifies this
      ensures cache == Apply(old(cache), Delete(key))
      ensures Lookup(cache, key) == None
      ensures forall k :: k != key ==> Lookup(cache, k) == Lookup(old(cache), k)
    {
      cache := cache - {key};
    }
  }
}
