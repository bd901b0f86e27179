/**
 * The Redis client each cache wrapper holds (`RedisClient` in
 * ElasticacheRedis.ts, apollo's `RedisCache` in Redis.ts): a recording
 * client over a key-value store. Besides the single-key operations it
 * exposes the raw connection's `mget` and `multi(commands).exec()`.
 */
module RedisClient {
  import opened Wrappers
  import CacheInterface

  /** `KeyValueCacheSetOptions`: an optional time to live in seconds. */
  datatype SetOptions = SetOptions(ttl: Option<int>)

  /** The Redis command `['set', key, value, 'ex', ttl]`. */
  datatype Command = SetEx(key: string, value: string, ttl: int)

  /** One call on the client, as a recording test double sees it. */
  datatype ClientCall =
    | SetCall(key: string, value: string, options: Option<SetOptions>)
    | GetCall(key: string)
    | DeleteCall(key: string)
    | FlushCall
    | CloseCall
    | MgetCall(keys: seq<string>)
    | MultiCall(commands: seq<Command>)
    | ExecCall

  /** One `set … ex ttl` command per key, in key order. */
  function CommandsFor(keys: seq<string>, values: map<string, string>, ttl: int): (cmds: seq<Command>)
    requires forall k :: k in keys ==> k in values
    ensures |cmds| == |keys|
    ensures forall i :: 0 <= i < |keys| ==> cmds[i] == SetEx(keys[i], values[keys[i]], ttl)
  {
    if keys == [] then []
    else [SetEx(keys[0], values[keys[0]], ttl)] + CommandsFor(keys[1..], values, ttl)
  }

  /**
   * The command list both wrappers build for `mset(keyValues, ttl)`: one
   * command per entry, each with that entry's value and the shared TTL.
   */
  function SetCommands(keyValues: CacheInterface.MsetKeyValues, ttl: int): (r: seq<Command>)
    ensures |r| == |keyValues.keys|
    ensures forall c :: c in r ==> c.key in keyValues.values && c.value == keyValues.values[c.key] && c.ttl == ttl
    ensures forall k :: k in keyValues.values ==> SetEx(k, keyValues.values[k], ttl) in r
    ensures forall i, j :: 0 <= i < j < |r| ==> r[i].key != r[j].key
  {
    var r := CommandsFor(keyValues.keys, keyValues.values, ttl);
    assert forall k :: k in keyValues.values ==> exists i :: 0 <= i < |keyValues.keys| && keyValues.keys[i] == k;
    r
  }

  /** The store after running `cmds` one after another. */
  function Execute(data: map<string, string>, cmds: seq<Command>): map<string, string>
    decreases cmds
  {
    if cmds == [] then data else Execute(data[cmds[0].key := cmds[0].value], cmds[1..])
  }

  /** The entries of `values` whose keys are listed in `keys`. */
  function Restrict(values: map<string, string>, keys: seq<string>): map<string, string>
    requires forall k :: k in keys ==> k in values
  {
    map k | k in keys :: values[k]
  }

  /** Running the commands for distinct keys writes exactly those entries. */
  lemma {:induction false} ExecuteCommandsFor(data: map<string, string>, keys: seq<string>,
                                              values: map<string, string>, ttl: int)
    requires forall k :: k in keys ==> k in values
    requires forall i, j :: 0 <= i < j < |keys| ==> keys[i] != keys[j]
    ensures Execute(data, CommandsFor(keys, values, ttl)) == data + Restrict(values, keys)
    decreases keys
  {
    if keys != [] {
      var k0, rest := keys[0], keys[1..];
      var cmds := CommandsFor(keys, values, ttl);
      assert cmds == [SetEx(k0, values[k0], ttl)] + CommandsFor(rest, values, ttl);
      assert Execute(data, cmds) == Execute(data[k0 := values[k0]], CommandsFor(rest, values, ttl));
      DistinctTail(keys);
      ExecuteCommandsFor(data[k0 := values[k0]], rest, values, ttl);
      DistinctHead(keys);
      assert keys == [k0] + rest;
      UpdateThenRestrict(data, values, k0, rest);
    }
  }

  lemma DistinctTail(keys: seq<string>)
    requires keys != []
    requires forall i, j :: 0 <= i < j < |keys| ==> keys[i] != keys[j]
    ensures forall i, j :: 0 <= i < j < |keys[1..]| ==> keys[1..][i] != keys[1..][j]
  {
    forall i, j | 0 <= i < j < |keys[1..]| ensures keys[1..][i] != keys[1..][j] {
      assert keys[1..][i] == keys[i + 1] && keys[1..][j] == keys[j + 1];
    }
  }

  lemma DistinctHead(keys: seq<string>)
    requires keys != []
    requires forall i, j :: 0 <= i < j < |keys| ==> keys[i] != keys[j]
    ensures keys[0] !in keys[1..]
  {
    forall i | 0 <= i < |keys[1..]| ensures keys[1..][i] != keys[0] {
      assert keys[1..][i] == keys[i + 1];
    }
  }

  lemma UpdateThenRestrict(data: map<string, string>, values: map<string, string>, k0: string, rest: seq<string>)
    requires k0 in values && forall k :: k in rest ==> k in values
    requires k0 !in rest
    ensures data[k0 := values[k0]] + Restrict(values, rest) == data + Restrict(values, [k0] + rest)
  {
    var lhs := data[k0 := values[k0]] + Restrict(values, rest);
    var rhs := data + Restrict(values, [k0] + rest);
    assert forall k :: k in [k0] + rest <==> k == k0 || k in rest;
    assert lhs.Keys == rhs.Keys;
    forall k | k in lhs ensures lhs[k] == rhs[k] {
      if k == k0 {
      } else if k in rest {
      }
    }
  }

  /** Executing the `mset` commands upserts every entry of the object, and nothing else. */
  lemma ExecuteSetCommands(data: map<string, string>, keyValues: CacheInterface.MsetKeyValues, ttl: int)
    ensures Execute(data, SetCommands(keyValues, ttl)) == data + keyValues.values
  {
    ExecuteCommandsFor(data, keyValues.keys, keyValues.values, ttl);
    assert Restrict(keyValues.values, keyValues.keys) == keyValues.values;
  }

  class RedisClient {
    const host: string
    const port: int
    /** The entries held by the Redis server behind this client. */
    var data: map<string, string>
    /** Every call made on this client, oldest first. */
    var log: seq<ClientCall>

    constructor (host: string, port: int, data: map<string, string>)
      ensures this.host == host && this.port == port
      ensures this.data == data && log == []
    {
      this.host := host;
      this.port := port;
      this.data := data;
      log := [];
    }

    method Set(key: string, value: string, options: Option<SetOptions>)
      modifies this
      ensures data == old(data)[key := value]
      ensures log == old(log) + [SetCall(key, value, options)]
    {
      data := data[key := value];
      log := log + [SetCall(key, value, options)];
    }

    method Get(key: string) returns (r: Option<string>)
      modifies this
      ensures r == CacheInterface.Lookup(data, key)
      ensures data == old(data)
      ensures log == old(log) + [GetCall(key)]
    {
      r := CacheInterface.Lookup(data, key);
      log := log + [GetCall(key)];
    }

    method Delete(key: string) returns (existed: bool)
      modifies this
      ensures existed <==> key in old(data)
      ensures data == old(data) - {key}
      ensures log == old(log) + [DeleteCall(key)]
    {
      existed := key in data;
      data := data - {key};
      log := log + [DeleteCall(key)];
    }

    method Flush()
      modifies this
      ensures data == map[]
      ensures log == old(log) + [FlushCall]
    {
      data := map[];
      log := log + [FlushCall];
    }

    method Close()
      modifies this
      ensures data == old(data)
      ensures log == old(log) + [CloseCall]
    {
      log := log + [CloseCall];
    }

    /** `client.mget(...keys)`: one slot per key, `null` (here `None`) for a missing key. */
    method Mget(keys: seq<string>) returns (r: seq<Option<string>>)
      modifies this
      ensures r == CacheInterface.LookupAll(data, keys)
      ensures data == old(data)
      ensures log == old(log) + [MgetCall(keys)]
    {
      r := CacheInterface.LookupAll(data, keys);
      log := log + [MgetCall(keys)];
    }

    /** `client.multi(commands).exec()`: one transaction running the commands in order. */
    method MultiExec(commands: seq<Command>)
      modifies this
      ensures data == Execute(old(data), commands)
      ensures log == old(log) + [MultiCall(commands), ExecCall]
    {
      log := log + [MultiCall(commands)];
      data := Execute(data, commands);
      log := log + [ExecCall];
    }
  }
}
