/**
 * `Redis`: the same split cache client, but it builds its two clients
 * itself from endpoint strings such as `"host:port"`, always on port 6379.
 */
module Redis {
  import opened Wrappers
  import Md5
  import CacheInterface
  import opened RedisClient

  /** `Redis.PORT` */
  const Port: int := 6379

  /**
   * `endpoint.split(':')[0]`: the endpoint up to its first `':'`, or the
   * whole endpoint when it has none.
   */
  function HostOf(endpoint: string): (host: string)
    ensures host <= endpoint
    ensures ':' !in host
    ensures |host| < |endpoint| ==> endpoint[|host|] == ':'
  {
    if endpoint == [] || endpoint[0] == ':' then [] else [endpoint[0]] + HostOf(endpoint[1..])
  }

  class Redis {
    const primaryClient: RedisClient
    const readerClient: RedisClient
    /** The md5 digest function of the `md5` package. */
    const md5: string -> Md5.Digest

    /** The two clients are distinct objects, as the constructor makes them. */
    predicate Valid() {
      primaryClient != readerClient
    }

    /** Connects to the host of each endpoint on port 6379. */
    constructor (primaryEndpoint: string, readerEndpoint: string, md5: string -> Md5.Digest)
      ensures Valid() && fresh(primaryClient) && fresh(readerClient)
      ensures primaryClient.host == HostOf(primaryEndpoint) && primaryClient.port == Port
      ensures readerClient.host == HostOf(readerEndpoint) && readerClient.port == Port
      ensures primaryClient.log == [] && readerClient.log == []
      ensures this.md5 == md5
    {
      primaryClient := new RedisClient(HostOf(primaryEndpoint), Port, map[]);
      readerClient := new RedisClient(HostOf(readerEndpoint), Port, map[]);
      this.md5 := md5;
    }

    /** Computed here and not by either client: a 32-digit hex digest of the key. */
    function GetKey(key: string): (r: string)
      ensures Md5.IsHexDigest(r)
    {
      md5(key)
    }

    method Set(key: string, data: string, options: Option<SetOptions>)
      requires Valid()
      modifies primaryClient
      ensures primaryClient.data == old(primaryClient.data)[key := data]
      ensures primaryClient.log == old(primaryClient.log) + [SetCall(key, data, options)]
      ensures unchanged(readerClient)
    {
      primaryClient.Set(key, data, options);
    }

    /** One transaction on the primary, one `set … ex ttl` per key in key order. */
    method Mset(keyValues: CacheInterface.MsetKeyValues, ttl: int)
      requires Valid()
      modifies primaryClient
      ensures primaryClient.log == old(primaryClient.log) + [MultiCall(SetCommands(keyValues, ttl)), ExecCall]
      ensures primaryClient.data == old(primaryClient.data) + keyValues.values
      ensures unchanged(readerClient)
    {
      ghost var before := primaryClient.data;
      var setCommands := SetCommands(keyValues, ttl);
      primaryClient.MultiExec(setCommands);
      ExecuteSetCommands(before, keyValues, ttl);
    }

    method Get(key: string) returns (r: Option<string>)
      requires Valid()
      modifies readerClient
      ensures r == CacheInterface.Lookup(readerClient.data, key)
      ensures readerClient.data == old(readerClient.data)
      ensures readerClient.log == old(readerClient.log) + [GetCall(key)]
      ensures unchanged(primaryClient)
    {
      r := readerClient.Get(key);
    }

    method Mget(key: seq<string>) returns (r: seq<Option<string>>)
      requires Valid()
      modifies readerClient
      ensures r == CacheInterface.LookupAll(readerClient.data, key)
      ensures readerClient.data == old(readerClient.data)
      ensures readerClient.log == old(readerClient.log) + [MgetCall(key)]
      ensures unchanged(primaryClient)
    {
      r := readerClient.Mget(key);
    }

    method Delete(key: string) returns (existed: bool)
      requires Valid()
      modifies primaryClient
      ensures existed <==> key in old(primaryClient.data)
      ensures primaryClient.data == old(primaryClient.data) - {key}
      ensures primaryClient.log == old(primaryClient.log) + [DeleteCall(key)]
      ensures unchanged(readerClient)
    {
      existed := primaryClient.Delete(key);
    }

    method Flush()
      requires Valid()
      modifies primaryClient
      ensures primaryClient.data == map[]
      ensures primaryClient.log == old(primaryClient.log) + [FlushCall]
      ensures unchanged(readerClient)
    {
      primaryClient.Flush();
    }

    method Close()
      requires Valid()
      modifies primaryClient, readerClient
      ensures primaryClient.data == old(primaryClient.data) && readerClient.data == old(readerClient.data)
      ensures primaryClient.log == old(primaryClient.log) + [CloseCall]
      ensures readerClient.log == old(readerClient.log) + [CloseCall]
    {
      primaryClient.Close();
      readerClient.Close();
    }

    method Clear()
      requires Valid()
      modifies primaryClient
      ensures primaryClient.data == map[]
      ensures primaryClient.log == old(primaryClient.log) + [FlushCall]
      ensures unchanged(readerClient)
    {
      Flush();
    }
  }
}
