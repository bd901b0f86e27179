/**
 * Plain JavaScript objects with string keys, as built by
 * `{...acc, [key]: value}` and read by `obj[key]` and `Object.keys(obj)`.
 *
 * `keys` lists the own keys in insertion order; `values` maps each key to
 * its value. `Object.keys` lists array-index keys first and every other
 * key in insertion order, so the two orders agree for the objects the
 * loader builds: their keys are `getKey` results, both cache wrappers'
 * `getKey` is a 32-digit md5 digest, and a 32-character string is never
 * an array index.
 */
module KeyValues {
  import opened Wrappers

  datatype Obj<V> = Obj(keys: seq<string>, values: map<string, V>)

  /** The shape every JavaScript object has: each key once, and exactly the keys that have values. */
  ghost predicate WellFormed<V>(o: Obj<V>) {
    && (forall i, j :: 0 <= i < j < |o.keys| ==> o.keys[i] != o.keys[j])
    && (forall k :: k in o.values <==> k in o.keys)
  }

  /** An object as JavaScript has them. */
  type JsObject<V> = o: Obj<V> | WellFormed(o) witness Obj([], map[])

  /** `{}` */
  function Empty<V>(): (o: JsObject<V>)
    ensures o.keys == [] && o.values == map[]
  {
    Obj([], map[])
  }

  /** `obj[key]`: the value at `key`, or `None` (undefined) when the object has no such key. */
  function Get<V>(o: Obj<V>, key: string): (r: Option<V>)
    ensures r.Some? <==> key in o.values
    ensures r.Some? ==> r.value == o.values[key]
  {
    if key in o.values then Some(o.values[key]) else None
  }

  /**
   * `{...o, [key]: value}`: an existing key keeps its place and takes the
   * new value; a new key goes last. Every other key is untouched.
   */
  function Put<V>(o: JsObject<V>, key: string, value: V): (r: JsObject<V>)
    ensures Get(r, key) == Some(value)
    ensures forall k :: k != key ==> Get(r, k) == Get(o, k)
    ensures key in o.keys ==> r.keys == o.keys
    ensures key !in o.keys ==> r.keys == o.keys + [key]
  {
    Obj(if key in o.keys then o.keys else o.keys + [key], o.values[key := value])
  }
}
