/**
 * The batched cache-aside loader (`batchCacheFn`): look every requested
 * key up with one `mget`, return the cached values when there are as many
 * as requests, and otherwise fetch the misses with one `callback` call,
 * write what was fetched back with one `mset`, and put fetched and cached
 * values back into request order.
 */
module Dataloader {
  import opened Wrappers
  import KeyValues
  import opened CacheInterface

  /**
   * The JavaScript operations the loader applies to values: `parse` is
   * `JSON.parse` of an `mget` slot (`None` stands for a `null` slot, and a
   * `None` answer for a `SyntaxError`), `stringify` is `JSON.stringify`,
   * and `truthy` is JavaScript truthiness (`if (value)`).
   */
  datatype ValueOps<!V> = ValueOps(parse: Option<string> -> Option<V>, stringify: V -> string, truthy: V -> bool)

  /** What `JSON.parse` throws on malformed text. */
  datatype ParseError = SyntaxError

  /** `BatchFnProps<T, U>` */
  datatype BatchFnProps<!T, !V> = BatchFnProps(
    values: seq<T>,
    valueFn: T -> string,
    callback: seq<T> -> seq<V>,
    cache: Cache,
    maxAge: int,
    cacheKeyFn: V -> string)

  /** `s.map(f)` */
  function MapSeq<A, B>(f: A -> B, s: seq<A>): (r: seq<B>)
    ensures |r| == |s|
    ensures forall i :: 0 <= i < |s| ==> r[i] == f(s[i])
  {
    if s == [] then [] else [f(s[0])] + MapSeq(f, s[1..])
  }

  /** `x => Some(x)` */
  function Wrap<V>(): V -> Option<V> {
    x => Some(x)
  }

  /** `x => x` */
  function Id<V>(): V -> V {
    x => x
  }

  /** The cache key of a result: `cache.getKey(cacheKeyFn(value))`. */
  function HashedKeyOf<V>(getKey: string -> string, cacheKeyFn: V -> string): V -> string {
    v => getKey(cacheKeyFn(v))
  }

  /** The cache key of one request: `cache.getKey(valueFn(value))`. */
  function RequestKey<T, V>(props: BatchFnProps<T, V>, value: T): string {
    props.cache.getKey(props.valueFn(value))
  }

  /** The cache keys of the requested values, in request order: one key per request. */
  function RequestKeys<T, V>(props: BatchFnProps<T, V>): (r: seq<string>)
    ensures |r| == |props.values|
    ensures forall i :: 0 <= i < |r| ==> r[i] == RequestKey(props, props.values[i])
  {
    MapSeq(props.cache.getKey, MapSeq(props.valueFn, props.values))
  }

  // ---------------------------------------------------------------------
  // Parsing the `mget` reply

  /**
   * `.map((value) => JSON.parse(value))`: every slot is parsed, `null`
   * slots included; if any slot fails to parse, the whole call throws.
   */
  function ParseAll<V>(parse: Option<string> -> Option<V>, slots: seq<Option<string>>): (r: Result<seq<V>, ParseError>)
    ensures r.Ok? <==> forall i :: 0 <= i < |slots| ==> parse(slots[i]).Some?
    ensures r.Ok? ==> |r.value| == |slots|
    ensures r.Ok? ==> forall i :: 0 <= i < |slots| ==> parse(slots[i]) == Some(r.value[i])
  {
    if slots == [] then Ok([])
    else match parse(slots[0])
      case None => Err(SyntaxError)
      case Some(v) =>
        match ParseAll(parse, slots[1..])
        case Err(e) => Err(e)
        case Ok(vs) => Ok([v] + vs)
  }

  // ---------------------------------------------------------------------
  // Objects built by `reduce` with spread

  /**
   * `s.reduce((acc, v) => v ? {...acc, [key(v)]: val(v)} : acc, {})`:
   * skips falsy values; a later value with the same key overwrites an
   * earlier one. The object has a key exactly when a truthy element has it.
   */
  function IndexBy<V, W>(s: seq<V>, truthy: V -> bool, key: V -> string, val: V -> W): (r: KeyValues.JsObject<W>)
    ensures forall k :: k in r.values <==> exists j :: 0 <= j < |s| && truthy(s[j]) && key(s[j]) == k
    decreases |s|
  {
    if s == [] then KeyValues.Empty()
    else
      var acc := IndexBy(s[..|s| - 1], truthy, key, val);
      var v := s[|s| - 1];
      if truthy(v) then KeyValues.Put(acc, key(v), val(v)) else acc
  }

  /** The position of the last truthy element of `s` whose key is `k`. */
  function LastMatch<V>(s: seq<V>, truthy: V -> bool, key: V -> string, k: string): (r: Option<nat>)
    ensures r.Some? ==> r.value < |s| && truthy(s[r.value]) && key(s[r.value]) == k
    ensures r.Some? ==> forall j :: r.value < j < |s| ==> !truthy(s[j]) || key(s[j]) != k
    ensures r.None? ==> forall j :: 0 <= j < |s| ==> !truthy(s[j]) || key(s[j]) != k
    decreases |s|
  {
    if s == [] then None
    else if truthy(s[|s| - 1]) && key(s[|s| - 1]) == k then Some(|s| - 1)
    else LastMatch(s[..|s| - 1], truthy, key, k)
  }

  /** The last truthy element of `s` whose key is `k`, if any. */
  function PickLast<V>(s: seq<V>, truthy: V -> bool, key: V -> string, k: string): Option<V> {
    match LastMatch(s, truthy, key, k)
    case None => None
    case Some(i) => Some(s[i])
  }

  /** Looking a key up in the reduced object finds the value of the last truthy element with that key. */
  lemma {:induction false} IndexByGet<V, W>(s: seq<V>, truthy: V -> bool, key: V -> string, val: V -> W, k: string)
    ensures KeyValues.Get(IndexBy(s, truthy, key, val), k) ==
            (match LastMatch(s, truthy, key, k) case None => None case Some(i) => Some(val(s[i])))
    decreases |s|
  {
    if s != [] {
      var init := s[..|s| - 1];
      IndexByGet(init, truthy, key, val, k);
      if !(truthy(s[|s| - 1]) && key(s[|s| - 1]) == k) {
        assert LastMatch(s, truthy, key, k) == LastMatch(init, truthy, key, k);
        match LastMatch(init, truthy, key, k)
        case None =>
        case Some(i) => assert init[i] == s[i];
      }
    }
  }

  /** The last element of `b` with key `k` beats anything in `a`: in `a + b`, `b` has the last word. */
  lemma {:induction false} LastMatchAppend<V>(a: seq<V>, b: seq<V>, truthy: V -> bool, key: V -> string, k: string)
    ensures LastMatch(b, truthy, key, k).Some? ==>
              LastMatch(a + b, truthy, key, k) == Some(|a| + LastMatch(b, truthy, key, k).value)
    ensures LastMatch(b, truthy, key, k).None? ==>
              LastMatch(a + b, truthy, key, k) == LastMatch(a, truthy, key, k)
    decreases |b|
  {
    if b != [] {
      var ab := a + b;
      assert ab[..|ab| - 1] == a + b[..|b| - 1];
      assert ab[|ab| - 1] == b[|b| - 1];
      LastMatchAppend(a, b[..|b| - 1], truthy, key, k);
    } else {
      assert a + b == a;
    }
  }

  // ---------------------------------------------------------------------
  // multiSetCacheValues: the object handed to `mset`

  /**
   * `cacheReadyValues`: each truthy value serialized under
   * `getKey(cacheKeyFn(value))`; the last value for a key wins. It has no
   * keys exactly when no value is truthy.
   */
  function CacheReadyValues<V>(values: seq<V>, getKey: string -> string, cacheKeyFn: V -> string, ops: ValueOps<V>): (r: MsetKeyValues)
    ensures r.keys == [] <==> forall j :: 0 <= j < |values| ==> !ops.truthy(values[j])
  {
    var key := HashedKeyOf(getKey, cacheKeyFn);
    var r := IndexBy(values, ops.truthy, key, ops.stringify);
    assert r.keys != [] ==> r.keys[0] in r.values;
    assert (exists j :: 0 <= j < |values| && ops.truthy(values[j])) ==> r.keys != [] by {
      if j :| 0 <= j < |values| && ops.truthy(values[j]) {
        assert key(values[j]) in r.values;
      }
    }
    r
  }

  /**
   * The object holds a key exactly when some truthy value hashes to it, and
   * then holds the serialization of the last such value.
   */
  lemma CacheReadyValuesAt<V>(values: seq<V>, getKey: string -> string, cacheKeyFn: V -> string, ops: ValueOps<V>, k: string)
    ensures k in CacheReadyValues(values, getKey, cacheKeyFn, ops).values <==>
              exists j :: 0 <= j < |values| && ops.truthy(values[j]) && getKey(cacheKeyFn(values[j])) == k
    ensures forall j :: 0 <= j < |values| && ops.truthy(values[j]) && getKey(cacheKeyFn(values[j])) == k &&
                        (forall j' :: j < j' < |values| ==> !ops.truthy(values[j']) || getKey(cacheKeyFn(values[j'])) != k) ==>
              CacheReadyValues(values, getKey, cacheKeyFn, ops).values[k] == ops.stringify(values[j])
  {
    var key := HashedKeyOf(getKey, cacheKeyFn);
    IndexByGet(values, ops.truthy, key, ops.stringify, k);
    match LastMatch(values, ops.truthy, key, k)
    case None =>
    case Some(i) =>
      forall j | 0 <= j < |values| && ops.truthy(values[j]) && key(values[j]) == k &&
                 (forall j' :: j < j' < |values| ==> !ops.truthy(values[j']) || key(values[j']) != k)
        ensures j == i
      {
      }
  }

  /** `mset` is called (once) exactly when the object has keys. */
  method MultiSetCacheValues<V>(values: seq<V>, cache: Cache, cacheKeyFn: V -> string, maxAge: int, ops: ValueOps<V>)
    modifies cache
    ensures var ready := CacheReadyValues(values, cache.getKey, cacheKeyFn, ops);
            if ready.keys == [] then cache.store == old(cache.store) && cache.log == old(cache.log)
            else cache.store == old(cache.store) + ready.values &&
                 cache.log == old(cache.log) + [MsetCall(ready, maxAge)]
  {
    var cacheReadyValues := CacheReadyValues(values, cache.getKey, cacheKeyFn, ops);
    if |cacheReadyValues.keys| != 0 {
      cache.Mset(cacheReadyValues, maxAge);
    }
  }

  // ---------------------------------------------------------------------
  // multiGetCachedValues

  /** One `mget` with the hashed keys in order; every slot of its reply parsed. */
  method MultiGetCachedValues<V>(cache: Cache, values: seq<string>, ops: ValueOps<V>) returns (r: Result<seq<V>, ParseError>)
    modifies cache
    ensures cache.store == old(cache.store)
    ensures cache.log == old(cache.log) + [MgetCall(MapSeq(cache.getKey, values))]
    ensures r == ParseAll(ops.parse, cache.mgetReply(cache.store, MapSeq(cache.getKey, values)))
  {
    var reply := cache.Mget(MapSeq(cache.getKey, values));
    r := ParseAll(ops.parse, reply);
  }

  // ---------------------------------------------------------------------
  // Miss detection and reordering

  /**
   * `values.filter((value) => !cachedKeys.includes(valueFn(value)))`:
   * compares unhashed keys.
   */
  function Missed<T>(values: seq<T>, valueFn: T -> string, cachedKeys: seq<string>): (r: seq<T>)
    ensures |r| <= |values|
    ensures forall i :: 0 <= i < |r| ==> r[i] in values && valueFn(r[i]) !in cachedKeys
    ensures forall i :: 0 <= i < |values| && valueFn(values[i]) !in cachedKeys ==> values[i] in r
  {
    if values == [] then []
    else (if valueFn(values[0]) in cachedKeys then [] else [values[0]]) + Missed(values[1..], valueFn, cachedKeys)
  }

  /** The filter keeps request order: it commutes with concatenation. */
  lemma {:induction false} MissedAppend<T>(a: seq<T>, b: seq<T>, valueFn: T -> string, cachedKeys: seq<string>)
    ensures Missed(a + b, valueFn, cachedKeys) == Missed(a, valueFn, cachedKeys) + Missed(b, valueFn, cachedKeys)
  {
    if a != [] {
      assert (a + b)[1..] == a[1..] + b;
      MissedAppend(a[1..], b, valueFn, cachedKeys);
    } else {
      assert a + b == b;
    }
  }

  /**
   * `reorderResults`: one entry per requested value, holding the last
   * truthy result whose cache key is the request's cache key, or nothing.
   */
  function ReorderResults<T, V>(results: seq<V>, props: BatchFnProps<T, V>, truthy: V -> bool): (r: seq<Option<V>>)
    ensures |r| == |props.values|
    ensures forall i :: 0 <= i < |r| ==>
              r[i] == PickLast(results, truthy, HashedKeyOf(props.cache.getKey, props.cacheKeyFn),
                               props.cache.getKey(props.valueFn(props.values[i])))
  {
    var key := HashedKeyOf(props.cache.getKey, props.cacheKeyFn);
    var resultsAsObject := IndexBy(results, truthy, key, Id());
    var r := MapSeq((value: T) => KeyValues.Get(resultsAsObject, props.cache.getKey(props.valueFn(value))), props.values);
    assert forall i :: 0 <= i < |r| ==>
             r[i] == PickLast(results, truthy, key, props.cache.getKey(props.valueFn(props.values[i]))) by {
      forall i | 0 <= i < |r|
        ensures r[i] == PickLast(results, truthy, key, props.cache.getKey(props.valueFn(props.values[i])))
      {
        IndexByGet(results, truthy, key, Id(), props.cache.getKey(props.valueFn(props.values[i])));
      }
    }
    r
  }

  /**
   * With results arranged as `batchResult.concat(cachedValues)`, a truthy
   * cached value wins over any fetched value with the same cache key.
   */
  lemma CachedValueWins<T, V>(batchResult: seq<V>, cachedValues: seq<V>, props: BatchFnProps<T, V>, truthy: V -> bool, i: nat)
    requires i < |props.values|
    ensures var key := HashedKeyOf(props.cache.getKey, props.cacheKeyFn);
            var k := props.cache.getKey(props.valueFn(props.values[i]));
            PickLast(cachedValues, truthy, key, k).Some? ==>
              ReorderResults(batchResult + cachedValues, props, truthy)[i] == PickLast(cachedValues, truthy, key, k)
  {
    var key := HashedKeyOf(props.cache.getKey, props.cacheKeyFn);
    var k := props.cache.getKey(props.valueFn(props.values[i]));
    LastMatchAppend(batchResult, cachedValues, truthy, key, k);
    if LastMatch(cachedValues, truthy, key, k).Some? {
      var j := LastMatch(cachedValues, truthy, key, k).value;
      assert (batchResult + cachedValues)[|batchResult| + j] == cachedValues[j];
    }
  }

  // ---------------------------------------------------------------------
  // batchCacheFn

  /** What one call does: its result, the arguments `callback` got, and what `mset` wrote. */
  datatype BatchRun<T, V> = BatchRun(
    result: Result<seq<Option<V>>, ParseError>,
    callbackArgs: seq<seq<T>>,
    written: Option<MsetKeyValues>)

  /** The writes a call made to the cache log. */
  function MsetCalls(written: Option<MsetKeyValues>, maxAge: int): seq<CacheCall> {
    if written.Some? then [MsetCall(written.value, maxAge)] else []
  }

  /** The entries a call wrote to the store. */
  function WrittenEntries(written: Option<MsetKeyValues>): map<string, string> {
    if written.Some? then written.value.values else map[]
  }

  /** The steps after the lookup (dataloader.ts:73-95), given the parsed cached values. */
  function Resolve<T, V>(props: BatchFnProps<T, V>, ops: ValueOps<V>, cachedValues: seq<V>): (run: BatchRun<T, V>)
    ensures run.result.Ok?
    ensures |run.result.value| == |props.values|
    ensures |cachedValues| == |props.values| ==>
              run.callbackArgs == [] && run.written.None? &&
              forall i :: 0 <= i < |props.values| ==> run.result.value[i] == Some(cachedValues[i])
    ensures |cachedValues| != |props.values| ==>
              && run.callbackArgs == [Missed(props.values, props.valueFn, MapSeq(props.cacheKeyFn, cachedValues))]
              && run.result.value == ReorderResults(props.callback(run.callbackArgs[0]) + cachedValues, props, ops.truthy)
              && (run.written.Some? <==> exists j :: 0 <= j < |props.callback(run.callbackArgs[0])| &&
                                                   ops.truthy(props.callback(run.callbackArgs[0])[j]))
    ensures run.written.Some? ==>
              run.written.value.keys != [] &&
              run.written == Some(CacheReadyValues(props.callback(run.callbackArgs[0]), props.cache.getKey, props.cacheKeyFn, ops))
  {
    if |props.values| == |cachedValues| then
      BatchRun(Ok(MapSeq(Wrap(), cachedValues)), [], None)
    else
      var cachedKeys := MapSeq(props.cacheKeyFn, cachedValues);
      var missedKeys := Missed(props.values, props.valueFn, cachedKeys);
      var batchResult := props.callback(missedKeys);
      var ready := CacheReadyValues(batchResult, props.cache.getKey, props.cacheKeyFn, ops);
      BatchRun(Ok(ReorderResults(batchResult + cachedValues, props, ops.truthy)),
               [missedKeys],
               if |ready.keys| != 0 then Some(ready) else None)
  }

  /**
   * `batchCacheFn` as written, given what `mget` answered: the parsed
   * reply is compared by count with the requests.
   */
  function BatchCacheRun<T, V>(props: BatchFnProps<T, V>, ops: ValueOps<V>, reply: seq<Option<string>>): (run: BatchRun<T, V>)
    ensures run.result.Err? <==> exists i :: 0 <= i < |reply| && ops.parse(reply[i]).None?
    ensures run.result.Ok? ==> |run.result.value| == |props.values|
    ensures |run.callbackArgs| <= 1
    ensures run.written.Some? ==> |run.callbackArgs| == 1
    ensures |reply| == |props.values| ==> run.callbackArgs == [] && run.written.None?
  {
    match ParseAll(ops.parse, reply)
    case Err(e) => BatchRun(Err(e), [], None)
    case Ok(cachedValues) => Resolve(props, ops, cachedValues)
  }

  /**
   * `batchCacheFn`: one `mget`; then, unless the count check returns the
   * cached values, one `callback` call with the misses, at most one `mset`
   * and the reordered results.
   */
  method BatchCacheFn<T, V>(props: BatchFnProps<T, V>, ops: ValueOps<V>)
    returns (r: Result<seq<Option<V>>, ParseError>, callbackArgs: seq<seq<T>>)
    modifies props.cache
    ensures var run := BatchCacheRun(props, ops, props.cache.mgetReply(old(props.cache.store), RequestKeys(props)));
            && r == run.result
            && callbackArgs == run.callbackArgs
            && props.cache.log == old(props.cache.log) + [MgetCall(RequestKeys(props))] + MsetCalls(run.written, props.maxAge)
            && props.cache.store == old(props.cache.store) + WrittenEntries(run.written)
  {
    var cache := props.cache;
    var parsed := MultiGetCachedValues(cache, MapSeq(props.valueFn, props.values), ops);
    callbackArgs := [];
    if parsed.Err? {
      r := Err(parsed.error);
      return;
    }
    var cachedValues := parsed.value;
    if |props.values| == |cachedValues| {
      r := Ok(MapSeq(Wrap(), cachedValues));
      return;
    }
    var cachedKeys := MapSeq(props.cacheKeyFn, cachedValues);
    var missedKeys := Missed(props.values, props.valueFn, cachedKeys);
    var batchResult := props.callback(missedKeys);
    callbackArgs := [missedKeys];
    MultiSetCacheValues(batchResult, cache, props.cacheKeyFn, props.maxAge, ops);
    var allValues := batchResult + cachedValues;
    r := Ok(ReorderResults(allValues, props, ops.truthy));
  }

  // ---------------------------------------------------------------------
  // The count check against a cache that answers one slot per key

  /**
   * As written: when `mget` answers one slot per key, as both Redis
   * clients do, the parsed reply always has as many entries as there are
   * requests, so `callback` is never called and nothing is written,
   * whatever the cache is missing.
   */
  lemma AsWrittenNeverFetches<T, V>(props: BatchFnProps<T, V>, ops: ValueOps<V>, store: map<string, string>)
    ensures var run := BatchCacheRun(props, ops, LookupAll(store, RequestKeys(props)));
            run.callbackArgs == [] && run.written.None?
  {
  }

  /**
   * The same at the level of the method: against a cache whose `mget`
   * answers one slot per key, `batchCacheFn` never calls `callback` and
   * leaves the store as it was.
   */
  method BatchCacheFnNeverFetches<T, V>(props: BatchFnProps<T, V>, ops: ValueOps<V>)
    returns (r: Result<seq<Option<V>>, ParseError>, callbackArgs: seq<seq<T>>)
    requires props.cache.OneSlotPerKey()
    modifies props.cache
    ensures callbackArgs == []
    ensures props.cache.store == old(props.cache.store)
    ensures props.cache.log == old(props.cache.log) + [MgetCall(RequestKeys(props))]
  {
    r, callbackArgs := BatchCacheFn(props, ops);
    AsWrittenNeverFetches(props, ops, old(props.cache.store));
  }

  /** The slots of a reply that hold a value, in reply order (see `PresentSlotsAppend`). */
  function PresentSlots(reply: seq<Option<string>>): (r: seq<string>)
    ensures |r| <= |reply|
    ensures |r| == |reply| <==> forall i :: 0 <= i < |reply| ==> reply[i].Some?
    ensures forall j :: 0 <= j < |r| ==> exists i :: 0 <= i < |reply| && reply[i] == Some(r[j])
    ensures forall i :: 0 <= i < |reply| && reply[i].Some? ==> reply[i].value in r
  {
    if reply == [] then []
    else (if reply[0].Some? then [reply[0].value] else []) + PresentSlots(reply[1..])
  }

  /**
   * Dropping absent slots keeps the reply's order: it commutes with
   * concatenation, keeps a present slot and drops an absent one.
   */
  lemma {:induction false} PresentSlotsAppend(a: seq<Option<string>>, b: seq<Option<string>>)
    ensures PresentSlots(a + b) == PresentSlots(a) + PresentSlots(b)
  {
    if a != [] {
      assert (a + b)[1..] == a[1..] + b;
      PresentSlotsAppend(a[1..], b);
    } else {
      assert a + b == b;
    }
  }

  /** A one-slot reply: a present slot is kept, an absent one dropped. */
  lemma PresentSlotsSingle(slot: Option<string>)
    ensures PresentSlots([slot]) == if slot.Some? then [slot.value] else []
  {
    assert [slot][1..] == [];
  }

  /**
   * The loader with the count check made meaningful: absent slots are
   * dropped before parsing, so only real hits are counted.
   */
  function BatchCacheRunDroppingMisses<T, V>(props: BatchFnProps<T, V>, ops: ValueOps<V>, reply: seq<Option<string>>): (run: BatchRun<T, V>)
    ensures |run.callbackArgs| <= 1
    ensures run.result.Ok? ==> |run.result.value| == |props.values|
  {
    match ParseAll(ops.parse, MapSeq(Wrap(), PresentSlots(reply)))
    case Err(e) => BatchRun(Err(e), [], None)
    case Ok(cachedValues) => Resolve(props, ops, cachedValues)
  }

  /**
   * The correlation the loader relies on: every entry the store holds for a
   * request parses, and to a value whose `cacheKeyFn` is the request's
   * `valueFn`.
   */
  ghost predicate CachedEntriesMatch<T, V>(props: BatchFnProps<T, V>, ops: ValueOps<V>, store: map<string, string>) {
    forall i :: 0 <= i < |props.values| && props.cache.getKey(props.valueFn(props.values[i])) in store ==>
      var parsed := ops.parse(Some(store[props.cache.getKey(props.valueFn(props.values[i]))]));
      parsed.Some? && props.cacheKeyFn(parsed.value) == props.valueFn(props.values[i])
  }

  /** The hits of a reply, parsed. */
  function Hits<T, V>(props: BatchFnProps<T, V>, ops: ValueOps<V>, store: map<string, string>): Result<seq<V>, ParseError> {
    ParseAll(ops.parse, MapSeq(Wrap(), PresentSlots(LookupAll(store, RequestKeys(props)))))
  }

  /** Under the correlation, every hit parses. */
  lemma HitsParse<T, V>(props: BatchFnProps<T, V>, ops: ValueOps<V>, store: map<string, string>)
    requires CachedEntriesMatch(props, ops, store)
    ensures Hits(props, ops, store).Ok?
    ensures |Hits(props, ops, store).value| == |PresentSlots(LookupAll(store, RequestKeys(props)))|
  {
    var keys := RequestKeys(props);
    var reply := LookupAll(store, keys);
    var present := PresentSlots(reply);
    var slots := MapSeq(Wrap(), present);
    assert forall i :: 0 <= i < |props.values| ==> keys[i] == RequestKey(props, props.values[i]);
    forall j | 0 <= j < |slots| ensures ops.parse(slots[j]).Some? {
      var i :| 0 <= i < |reply| && reply[i] == Some(present[j]);
      assert keys[i] in store && store[keys[i]] == present[j];
      assert slots[j] == Some(present[j]);
    }
  }

  /** Each hit is the entry of a stored request, whose `valueFn` is the hit's `cacheKeyFn`. */
  lemma HitOrigin<T, V>(props: BatchFnProps<T, V>, ops: ValueOps<V>, store: map<string, string>, j: nat) returns (i: nat)
    requires CachedEntriesMatch(props, ops, store)
    requires Hits(props, ops, store).Ok? && j < |Hits(props, ops, store).value|
    ensures i < |props.values| && RequestKey(props, props.values[i]) in store
    ensures props.cacheKeyFn(Hits(props, ops, store).value[j]) == props.valueFn(props.values[i])
  {
    var keys := RequestKeys(props);
    var reply := LookupAll(store, keys);
    var present := PresentSlots(reply);
    var slots := MapSeq(Wrap(), present);
    var cachedValues := Hits(props, ops, store).value;
    i :| 0 <= i < |reply| && reply[i] == Some(present[j]);
    assert keys[i] == RequestKey(props, props.values[i]);
    assert keys[i] in store && store[keys[i]] == present[j];
    assert slots[j] == Some(present[j]);
    assert ops.parse(slots[j]) == Some(cachedValues[j]);
  }

  /** Each stored request has a hit whose `cacheKeyFn` is the request's `valueFn`. */
  lemma StoredRequestHit<T, V>(props: BatchFnProps<T, V>, ops: ValueOps<V>, store: map<string, string>, i: nat) returns (j: nat)
    requires CachedEntriesMatch(props, ops, store)
    requires i < |props.values| && RequestKey(props, props.values[i]) in store
    ensures Hits(props, ops, store).Ok? && j < |Hits(props, ops, store).value|
    ensures props.cacheKeyFn(Hits(props, ops, store).value[j]) == props.valueFn(props.values[i])
  {
    HitsParse(props, ops, store);
    var keys := RequestKeys(props);
    var reply := LookupAll(store, keys);
    var present := PresentSlots(reply);
    var slots := MapSeq(Wrap(), present);
    var cachedValues := Hits(props, ops, store).value;
    assert keys[i] == RequestKey(props, props.values[i]);
    assert reply[i] == Some(store[keys[i]]);
    assert store[keys[i]] in present;
    j :| 0 <= j < |present| && present[j] == store[keys[i]];
    assert slots[j] == Some(present[j]);
    assert ops.parse(slots[j]) == Some(cachedValues[j]);
  }

  /** A request's `valueFn` is among the hits' `cacheKeyFn`s exactly when the request is stored. */
  lemma HitKeysAreStoredRequests<T, V>(props: BatchFnProps<T, V>, ops: ValueOps<V>, store: map<string, string>, i: nat)
    requires CachedEntriesMatch(props, ops, store)
    requires i < |props.values|
    ensures Hits(props, ops, store).Ok?
    ensures props.valueFn(props.values[i]) in MapSeq(props.cacheKeyFn, Hits(props, ops, store).value) <==>
            RequestKey(props, props.values[i]) in store
  {
    HitsParse(props, ops, store);
    var cachedValues := Hits(props, ops, store).value;
    var cachedKeys := MapSeq(props.cacheKeyFn, cachedValues);
    if props.valueFn(props.values[i]) in cachedKeys {
      var j :| 0 <= j < |cachedKeys| && cachedKeys[j] == props.valueFn(props.values[i]);
      var i' := HitOrigin(props, ops, store, j);
      assert RequestKey(props, props.values[i']) == RequestKey(props, props.values[i]);
    }
    if RequestKey(props, props.values[i]) in store {
      var j := StoredRequestHit(props, ops, store, i);
      assert cachedKeys[j] == props.valueFn(props.values[i]);
    }
  }

  /**
   * Past the lookup: when the hits' keys pick out exactly the stored
   * requests, `callback` gets exactly the requests missing from the store.
   */
  lemma ResolveFetchesMisses<T, V>(props: BatchFnProps<T, V>, ops: ValueOps<V>, store: map<string, string>, cachedValues: seq<V>)
    requires forall i :: 0 <= i < |props.values| ==>
               (props.valueFn(props.values[i]) in MapSeq(props.cacheKeyFn, cachedValues) <==>
                RequestKey(props, props.values[i]) in store)
    requires |cachedValues| == |props.values| <==>
               forall i :: 0 <= i < |props.values| ==> RequestKey(props, props.values[i]) in store
    ensures var run := Resolve(props, ops, cachedValues);
            && (run.callbackArgs == [] <==>
                  forall i :: 0 <= i < |props.values| ==> RequestKey(props, props.values[i]) in store)
            && (run.callbackArgs != [] ==>
                  && (forall j :: 0 <= j < |run.callbackArgs[0]| ==>
                        run.callbackArgs[0][j] in props.values &&
                        RequestKey(props, run.callbackArgs[0][j]) !in store)
                  && (forall i :: 0 <= i < |props.values| && RequestKey(props, props.values[i]) !in store ==>
                        props.values[i] in run.callbackArgs[0]))
  {
    if |cachedValues| != |props.values| {
      var cachedKeys := MapSeq(props.cacheKeyFn, cachedValues);
      var missed := Missed(props.values, props.valueFn, cachedKeys);
      assert Resolve(props, ops, cachedValues).callbackArgs == [missed];
      forall j | 0 <= j < |missed|
        ensures missed[j] in props.values && RequestKey(props, missed[j]) !in store
      {
        var i :| 0 <= i < |props.values| && props.values[i] == missed[j];
      }
    }
  }

  /**
   * Dropping absent slots, against a cache that answers one slot per key:
   * `callback` is called exactly when some request is missing from the
   * store, and then with exactly the missing requests.
   */
  lemma DroppingMissesFetchesExactlyTheMisses<T, V>(props: BatchFnProps<T, V>, ops: ValueOps<V>, store: map<string, string>)
    requires CachedEntriesMatch(props, ops, store)
    ensures var run := BatchCacheRunDroppingMisses(props, ops, LookupAll(store, RequestKeys(props)));
            && run.result.Ok?
            && (run.callbackArgs == [] <==>
                  forall i :: 0 <= i < |props.values| ==> RequestKey(props, props.values[i]) in store)
            && (run.callbackArgs != [] ==>
                  && (forall j :: 0 <= j < |run.callbackArgs[0]| ==>
                        run.callbackArgs[0][j] in props.values &&
                        RequestKey(props, run.callbackArgs[0][j]) !in store)
                  && (forall i :: 0 <= i < |props.values| && RequestKey(props, props.values[i]) !in store ==>
                        props.values[i] in run.callbackArgs[0]))
  {
    var keys := RequestKeys(props);
    var reply := LookupAll(store, keys);
    HitsParse(props, ops, store);
    var cachedValues := Hits(props, ops, store).value;
    assert BatchCacheRunDroppingMisses(props, ops, reply) == Resolve(props, ops, cachedValues);
    assert forall i :: 0 <= i < |props.values| ==> keys[i] == RequestKey(props, props.values[i]);
    assert |PresentSlots(reply)| == |reply| <==> forall i :: 0 <= i < |reply| ==> reply[i].Some?;
    forall i | 0 <= i < |props.values|
      ensures props.valueFn(props.values[i]) in MapSeq(props.cacheKeyFn, cachedValues) <==>
              RequestKey(props, props.values[i]) in store
    {
      HitKeysAreStoredRequests(props, ops, store, i);
    }
    ResolveFetchesMisses(props, ops, store, cachedValues);
  }

  /**
   * The smallest input that shows the difference: one request and an empty
   * cache. As written, the `null` slot is returned as the value and
   * `callback` is never called; dropping absent slots fetches the request.
   */
  lemma OneMissOnEmptyCache<T, V>(props: BatchFnProps<T, V>, ops: ValueOps<V>)
    requires |props.values| == 1
    requires ops.parse(None).Some?
    ensures var run := BatchCacheRun(props, ops, LookupAll(map[], RequestKeys(props)));
            run.callbackArgs == [] && run.result == Ok([Some(ops.parse(None).value)])
    ensures BatchCacheRunDroppingMisses(props, ops, LookupAll(map[], RequestKeys(props))).callbackArgs == [props.values]
  {
    var reply := LookupAll(map[], RequestKeys(props));
    assert reply == [None];
    assert PresentSlots(reply) == [];
    assert reply[0] == None && reply[1..] == [];
    assert ParseAll(ops.parse, reply[1..]) == Ok([]);
    assert [ops.parse(None).value] + [] == [ops.parse(None).value];
    assert MapSeq(Wrap(), [ops.parse(None).value]) == [Some(ops.parse(None).value)];
    assert Missed(props.values, props.valueFn, []) == props.values;
  }
}
