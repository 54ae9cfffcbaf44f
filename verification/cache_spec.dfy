/**
 * What a string-keyed cache holds: a dictionary from keys to values, and the
 * effect of the two writes it accepts. Both cache classes of the SDK are
 * proved against these definitions.
 */
module CacheSpec {
  import opened Wrappers

  type Store = map<string, string>

  /** `get(key)`: the value held for `key`, or `undefined` (`None`). */
  function Lookup(store: Store, key: string): (r: Option<string>)
    ensures r.Some? <==> key in store
    ensures r.Some? ==> r.value == store[key]
  {
    if key in store then Some(store[key]) else None
  }

  /** A write to the cache: `set(key, value)` or `remove(key)`. */
  datatype Write = Put(key: string, value: string) | Delete(key: string)

  /** The dictionary after one write. */
  function Apply(store: Store, w: Write): Store
  {
    match w
    case Put(k, v) => store[k := v]
    case Delete(k) => store - {k}
  }

  /** `set(k, v)` then `get(k)` gives `v`, whatever `k` held before. */
  lemma GetAfterSet(store: Store, k: string, v: string)
    ensures Lookup(Apply(store, Put(k, v)), k) == Some(v)
  {
  }

  /** `remove(k)` then `get(k)` gives `undefined`; removing a key that is not held changes nothing. */
  lemma GetAfterRemove(store: Store, k: string)
    ensures Lookup(Apply(store, Delete(k)), k) == None
    ensures k !in store ==> Apply(store, Delete(k)) == store
  {
  }

  /** A write to one key leaves the value of every other key as it was. */
  lemma WriteKeepsOtherKeys(store: Store, w: Write, other: string)
    requires other != w.key
    ensures Lookup(Apply(store, w), other) == Lookup(store, other)
  {
  }

  /** The dictionary after a sequence of writes, first to last. */
  function Replay(store: Store, ws: seq<Write>): Store
    decreases |ws|
  {
    if ws == [] then store else Apply(Replay(store, ws[..|ws| - 1]), ws[|ws| - 1])
  }

  /**
   * The value the most recent write to `key` left, or the initial value when
   * no write touched `key`.
   */
  function LastWrite(store: Store, ws: seq<Write>, key: string): Option<string>
    decreases |ws|
  {
    if ws == [] then Lookup(store, key)
    else
      var w := ws[|ws| - 1];
      if w.key != key then LastWrite(store, ws[..|ws| - 1], key)
      else if w.Put? then Some(w.value)
      else None
  }

  /**
   * `get(k)` after any sequence of writes returns the value most recently set
   * for `k`, or `undefined` when `k` was removed since or never set.
   */
  lemma {:induction false} LookupAfterReplay(store: Store, ws: seq<Write>, key: string)
    ensures Lookup(Replay(store, ws), key) == LastWrite(store, ws, key)
    decreases |ws|
  {
    if ws != [] {
      LookupAfterReplay(store, ws[..|ws| - 1], key);
      var w := ws[|ws| - 1];
      if w.key != key {
        WriteKeepsOtherKeys(Replay(store, ws[..|ws| - 1]), w, key);
      }
    }
  }
}
