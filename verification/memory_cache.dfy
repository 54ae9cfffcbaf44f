/** The cache kept in the private `store` map of the `MemoryCache` class. */
module MemoryCacheModule {
  import opened Wrappers
  import opened CacheSpec

  class MemoryCache {
    /** The private `store` map. */
    var store: Store

    constructor ()
      ensures store == map[]
    {
      store := map[];
    }

    /** `get(key)`: reads the store and changes nothing. */
    method Get(key: string) returns (value: Option<string>)
      ensures value == Lookup(store, key)
      ensures value.Some? <==> key in store
    {
      if key in store {
        value := Some(store[key]);
      } else {
        value := None;
      }
    }

    /** `set(key, value)`: `Map.set` replaces the entry for `key`. */
    method Set(key: string, value: string)
      modifies this
      ensures store == Apply(old(store), Put(key, value))
      ensures Lookup(store, key) == Some(value)
      ensures forall k :: k != key ==> Lookup(store, k) == Lookup(old(store), k)
    {
      store := store[key := value];
    }

    /** `remove(key)`: `Map.delete` drops the entry for `key`, if any. */
    method Remove(key: string)
      modifies this
      ensures store == Apply(old(store), Delete(key))
      ensures Lookup(store, key) == None
      ensures forall k :: k != key ==> Lookup(store, k) == Lookup(old(store), k)
    {
      store := store - {key};
    }
  }
}
