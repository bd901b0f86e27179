/**
 * The cache contract every cache client implements (`CacheInterface`).
 *
 * The contract has no code of its own; it is modelled as a class over an
 * abstract key-to-string store that records every call made on it, so
 * that a caller's use of the cache can be stated call by call. What an
 * implementation answers to `mget` is not fixed by the contract (it only
 * promises a list), so it is a parameter of the object: `mgetReply`.
 */
module CacheInterface {
  import opened Wrappers
  import KeyValues

  /** `MsetKeyValues`: cache key to serialized value, in key order. */
  type MsetKeyValues = KeyValues.JsObject<string>

  /** One call on the cache, as a recording test double sees it. */
  datatype CacheCall =
    | SetCall(key: string, value: string)
    | MsetCall(keyValues: MsetKeyValues, ttl: int)
    | GetCall(key: string)
    | MgetCall(keys: seq<string>)
    | DeleteCall(key: string)
    | FlushCall
    | CloseCall
    | ClearCall

  /** The value stored under `key`, absent when there is none. */
  function Lookup(store: map<string, string>, key: string): Option<string> {
    if key in store then Some(store[key]) else None
  }

  /** One lookup per key, in key order: what a Redis `MGET` answers. */
  function LookupAll(store: map<string, string>, keys: seq<string>): (r: seq<Option<string>>)
    ensures |r| == |keys|
    ensures forall i :: 0 <= i < |keys| ==> r[i] == Lookup(store, keys[i])
  {
    if keys == [] then [] else [Lookup(store, keys[0])] + LookupAll(store, keys[1..])
  }

  /** Some implementation of the cache contract. */
  class Cache {
    /** `getKey`: synchronous, total and free of I/O; a function of the key alone. */
    const getKey: string -> string
    /** What this implementation's `mget` returns for a store and a key list. */
    const mgetReply: (map<string, string>, seq<string>) -> seq<Option<string>>
    /** The entries the backing store holds. */
    var store: map<string, string>
    /** Every call made on this cache, oldest first. */
    var log: seq<CacheCall>

    constructor (getKey: string -> string,
                 mgetReply: (map<string, string>, seq<string>) -> seq<Option<string>>,
                 store: map<string, string>)
      ensures this.getKey == getKey && this.mgetReply == mgetReply
      ensures this.store == store && log == []
    {
      this.getKey := getKey;
      this.mgetReply := mgetReply;
      this.store := store;
      log := [];
    }

    /** The implementation answers `mget` with one slot per key, `null` where a key is missing. */
    ghost predicate OneSlotPerKey() {
      forall s, ks :: mgetReply(s, ks) == LookupAll(s, ks)
    }

    method Set(key: string, value: string)
      modifies this
      ensures store == old(store)[key := value]
      ensures log == old(log) + [SetCall(key, value)]
    {
      store := store[key := value];
      log := log + [SetCall(key, value)];
    }

    /** Upserts every entry; `ttl` is shared by all of them. */
    method Mset(keyValues: MsetKeyValues, ttl: int)
      modifies this
      ensures store == old(store) + keyValues.values
      ensures log == old(log) + [MsetCall(keyValues, ttl)]
    {
      store := store + keyValues.values;
      log := log + [MsetCall(keyValues, ttl)];
    }

    /** A missing key is a normal answer, not an error. */
    method Get(key: string) returns (r: Option<string>)
      modifies this
      ensures r.Some? <==> key in store
      ensures r.Some? ==> r.value == store[key]
      ensures store == old(store)
      ensures log == old(log) + [GetCall(key)]
    {
      r := Lookup(store, key);
      log := log + [GetCall(key)];
    }

    method Mget(keys: seq<string>) returns (r: seq<Option<string>>)
      modifies this
      ensures r == mgetReply(store, keys)
      ensures store == old(store)
      ensures log == old(log) + [MgetCall(keys)]
    {
      r := mgetReply(store, keys);
      log := log + [MgetCall(keys)];
    }

    method Delete(key: string) returns (existed: bool)
      modifies this
      ensures existed <==> key in old(store)
      ensures store == old(store) - {key}
      ensures log == old(log) + [DeleteCall(key)]
    {
      existed := key in store;
      store := store - {key};
      log := log + [DeleteCall(key)];
    }

    method Flush()
      modifies this
      ensures store == map[]
      ensures log == old(log) + [FlushCall]
    {
      store := map[];
      log := log + [FlushCall];
    }

    /** Releases the connections; the entries stay in the store. */
    method Close()
      modifies this
      ensures store == old(store)
      ensures log == old(log) + [CloseCall]
    {
      log := log + [CloseCall];
    }

    /** Same effect on the store as `Flush`. */
    method Clear()
      modifies this
      ensures store == map[]
      ensures log == old(log) + [ClearCall]
    {
      store := map[];
      log := log + [ClearCall];
    }
  }
}
