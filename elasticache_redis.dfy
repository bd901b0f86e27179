/**
 * `ElasticacheRedis`: a cache client over two Redis clients, a primary
 * (write) endpoint and a reader endpoint. Writes reach only the primary,
 * reads only the reader, `close` reaches both. The two clients may be the
 * same object; every routing promise below says what happens then.
 */
module ElasticacheRedis {
  import opened Wrappers
  import Md5
  import CacheInterface
  import opened RedisClient

  class ElasticacheRedis {
    const primaryClient: RedisClient
    const readerClient: RedisClient
    /** The md5 digest function of the `md5` package. */
    const md5: string -> Md5.Digest

    constructor (primaryClient: RedisClient, readerClient: RedisClient, md5: string -> Md5.Digest)
      ensures this.primaryClient == primaryClient && this.readerClient == readerClient
      ensures this.md5 == md5
    {
      this.primaryClient := primaryClient;
      this.readerClient := readerClient;
      this.md5 := md5;
    }

    /** Computed here and not by either client: a 32-digit hex digest of the key. */
    function GetKey(key: string): (r: string)
      ensures Md5.IsHexDigest(r)
    {
      md5(key)
    }

    /** One `set` on the primary with the same key, value and options. */
    method Set(key: string, value: string, options: Option<SetOptions>)
      modifies primaryClient
      ensures primaryClient.data == old(primaryClient.data)[key := value]
      ensures primaryClient.log == old(primaryClient.log) + [SetCall(key, value, options)]
      ensures readerClient != primaryClient ==> unchanged(readerClient)
    {
      primaryClient.Set(key, value, options);
    }

    /**
     * One transaction on the primary holding one `set … ex ttl` command per
     * key, in key order, executed once (also when there are no keys); it
     * upserts exactly the given entries.
     */
    method Mset(keyValues: CacheInterface.MsetKeyValues, ttl: int)
      modifies primaryClient
      ensures primaryClient.log == old(primaryClient.log) + [MultiCall(SetCommands(keyValues, ttl)), ExecCall]
      ensures primaryClient.data == old(primaryClient.data) + keyValues.values
      ensures readerClient != primaryClient ==> unchanged(readerClient)
    {
      ghost var before := primaryClient.data;
      var setCommands := SetCommands(keyValues, ttl);
      primaryClient.MultiExec(setCommands);
      ExecuteSetCommands(before, keyValues, ttl);
    }

    /** The reader's answer, unchanged. */
    method Get(key: string) returns (r: Option<string>)
      modifies readerClient
      ensures r == CacheInterface.Lookup(readerClient.data, key)
      ensures readerClient.data == old(readerClient.data)
      ensures readerClient.log == old(readerClient.log) + [GetCall(key)]
      ensures readerClient != primaryClient ==> unchanged(primaryClient)
    {
      r := readerClient.Get(key);
    }

    /** The reader's `mget` on the keys in order: one slot per key. */
    method Mget(keys: seq<string>) returns (r: seq<Option<string>>)
      modifies readerClient
      ensures r == CacheInterface.LookupAll(readerClient.data, keys)
      ensures readerClient.data == old(readerClient.data)
      ensures readerClient.log == old(readerClient.log) + [MgetCall(keys)]
      ensures readerClient != primaryClient ==> unchanged(primaryClient)
    {
      r := readerClient.Mget(keys);
    }

    /** The primary's answer: whether the key was there. */
    method Delete(key: string) returns (existed: bool)
      modifies primaryClient
      ensures existed <==> key in old(primaryClient.data)
      ensures primaryClient.data == old(primaryClient.data) - {key}
      ensures primaryClient.log == old(primaryClient.log) + [DeleteCall(key)]
      ensures readerClient != primaryClient ==> unchanged(readerClient)
    {
      existed := primaryClient.Delete(key);
    }

    method Flush()
      modifies primaryClient
      ensures primaryClient.data == map[]
      ensures primaryClient.log == old(primaryClient.log) + [FlushCall]
      ensures readerClient != primaryClient ==> unchanged(readerClient)
    {
      primaryClient.Flush();
    }

    /** Both clients are closed once each. */
    method Close()
      modifies primaryClient, readerClient
      ensures primaryClient.data == old(primaryClient.data) && readerClient.data == old(readerClient.data)
      ensures primaryClient != readerClient ==>
                primaryClient.log == old(primaryClient.log) + [CloseCall] &&
                readerClient.log == old(readerClient.log) + [CloseCall]
      ensures primaryClient == readerClient ==>
                primaryClient.log == old(primaryClient.log) + [CloseCall, CloseCall]
    {
      primaryClient.Close();
      readerClient.Close();
    }

    /** `clear` is `flush`: one more flush on the primary. */
    method Clear()
      modifies primaryClient
      ensures primaryClient.data == map[]
      ensures primaryClient.log == old(primaryClient.log) + [FlushCall]
      ensures readerClient != primaryClient ==> unchanged(readerClient)
    {
      Flush();
    }
  }
}
