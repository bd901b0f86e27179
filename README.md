# Pocket apollo-utils: the caching core, pagination and error handling

This project models the core of Pocket's `apollo-utils` TypeScript library in Dafny, and proves what each part promises:

- **The batched cache-aside loader** (`batchCacheFn`, `dataloader.dfy`). It looks up every requested key with one `mget`. When the parsed reply has as many entries as there are requests, it returns them. Otherwise it calls the backing `callback` once with the misses, writes the fetched values back with one `mset`, and puts fetched and cached values into request order.
- **The cache contract** (`CacheInterface`, `cache_interface.dfy`). A cache object over an abstract key-to-string store that records every call made on it.
- **The two primary/reader cache clients.**
  - `ElasticacheRedis` (`elasticache_redis.dfy`) wraps two given clients.
  - `Redis` (`redis.dfy`) builds its two clients from endpoint strings.
  - In both, writes go to the primary, reads go to the reader, and `close` reaches both.
  - `mset` becomes one `multi(…).exec()` transaction of `set … ex ttl` commands.
  - The clients themselves are in `redis_client.dfy`.
- **The pagination validator** (`validatePagination`, `pagination.dfy`). It updates the input object in place.
- **Error classification** (`error_handler.dfy`): `errorHandler`, `gatewayErrorHandler`, `isGatewayError`, the unmasked code set and the custom error classes.
- **The Sentry plugin's report filter** (`sentry_plugin.dfy`). The `didEncounterErrors` loop appends one report per error whose code is not in `NO_REPORT_ERRORS`.

Supporting files:
- `key_values.dfy` models JavaScript objects built with spread. Keys keep insertion order. That is `Object.keys` order for the objects the loader builds: their keys are `getKey` results, both wrappers' `getKey` yields 32-digit md5 digests, and a 32-character string is never an array index (the only keys `Object.keys` lists first).
- `md5.dfy` describes the shape of an md5 digest.
- `wrappers.dfy` holds `Option` and `Result`.

**External behaviour is passed in as parameters.** The library calls code whose behaviour the model does not define. Each such call becomes a function the caller supplies:
- the md5 digest function;
- `JSON.parse`, `JSON.stringify` and JavaScript truthiness (`Dataloader.ValueOps`);
- the base64 + `parseInt` cursor decoding (`decode`);
- what an implementation's `mget` answers (`CacheInterface.Cache.mgetReply`).

**State-changing code is modelled as classes with call logs.** The cache clients, the input object of `validatePagination` and the Sentry sink are classes whose methods update fields. Every cache or client method records its call in a `log`, so routing is stated as "this call reached only this side".

**Where a Dafny method has a value-level specification function, the proofs go through that function:**
- `BatchCacheFn` is specified by `BatchCacheRun`;
- `ValidatePagination` by `Validate`;
- `DidEncounterErrors` by `ReportsFor`.

The method's postcondition ties it to the function, and the lemmas are stated about the function.

## Model

| member | source | states |
|---|---|---|
| KeyValues.Put | src/dataloader.ts:22-25 | `{...acc, [key]: value}`: the key maps to the new value. Every other key is untouched. An existing key keeps its place and a new key goes last |
| CacheInterface.LookupAll | src/cache/ElasticacheRedis.ts:74-77 | a Redis `MGET` answers one slot per key, in key order, absent exactly where the store has no entry |
| CacheInterface.Cache.constructor | src/cache/interface.ts:6 | `getKey` is a fixed total string function, with no I/O; the store is the given one; nothing has been called yet |
| CacheInterface.Cache.Set | src/cache/interface.ts:8 | stores the value under the key; one call logged |
| CacheInterface.Cache.Mset | src/cache/interface.ts:1-10 | takes a string-to-string object and one TTL for all entries; upserts every entry |
| CacheInterface.Cache.Get | src/cache/interface.ts:12 | a missing key is an absent answer, not an error; a stored key answers its value; the store is unchanged |
| CacheInterface.Cache.Mget | src/cache/interface.ts:14 | takes an ordered key list and returns the implementation's list; the store is unchanged |
| CacheInterface.Cache.Delete | src/cache/interface.ts:16 | returns whether the key was stored, and removes it |
| CacheInterface.Cache.Flush | src/cache/interface.ts:18 | empties the store |
| CacheInterface.Cache.Close | src/cache/interface.ts:20 | leaves the store as it is |
| CacheInterface.Cache.Clear | src/cache/interface.ts:22 | empties the store, like `flush` |
| RedisClient.CommandsFor | src/cache/ElasticacheRedis.ts:55-57 | one `['set', k, v, 'ex', ttl]` command per key, in key order, `v` being that key's value |
| RedisClient.ExecuteCommandsFor | src/cache/ElasticacheRedis.ts:59 | running the commands for distinct keys one after another writes exactly those keys' entries over the old data |
| RedisClient.ExecuteSetCommands | src/cache/ElasticacheRedis.ts:51-60 | executing the `mset` command list upserts exactly the object's entries and nothing else |
| RedisClient.RedisClient.Set | src/cache/ElasticacheRedis.ts:4-7 | the client stores the value and logs the call with its options |
| RedisClient.RedisClient.Get | src/cache/ElasticacheRedis.ts:4-7 | the client answers the stored value or absence, and logs the call |
| RedisClient.RedisClient.Delete | src/cache/ElasticacheRedis.ts:4-7 | the client answers whether the key was stored, and removes it |
| RedisClient.RedisClient.Flush | src/cache/ElasticacheRedis.ts:4-7 | the client's store becomes empty |
| RedisClient.RedisClient.Close | src/cache/ElasticacheRedis.ts:4-7 | the client logs the close and keeps its data |
| RedisClient.RedisClient.Mget | src/cache/ElasticacheRedis.ts:6 | the raw connection's `mget` answers one slot per key |
| RedisClient.RedisClient.MultiExec | src/cache/ElasticacheRedis.ts:6 | `multi(commands).exec()`: one `multi` with the list, one `exec`, and the commands run in order |
| RedisClient.SetCommands | src/cache/ElasticacheRedis.ts:55-57 | one command per key of the object, for distinct keys, each carrying that key's value and the shared TTL, every entry getting one |
| ElasticacheRedis.ElasticacheRedis.constructor | src/cache/ElasticacheRedis.ts:19-22 | keeps the two given clients as primary and reader |
| ElasticacheRedis.ElasticacheRedis.GetKey | src/cache/ElasticacheRedis.ts:28-30 | computed locally by md5, never delegated: always a 32-digit hex digest |
| ElasticacheRedis.ElasticacheRedis.Set | src/cache/ElasticacheRedis.ts:38-44 | exactly one `set` on the primary with the same key, value and options; the reader is untouched when it is a different client |
| ElasticacheRedis.ElasticacheRedis.Mset | src/cache/ElasticacheRedis.ts:51-60 | one `multi` with one command per key in key order, then one `exec`, on the primary, also for an empty object; the primary ends up holding every entry; the reader is untouched |
| ElasticacheRedis.ElasticacheRedis.Get | src/cache/ElasticacheRedis.ts:66-68 | only the reader is asked; its answer is returned unchanged |
| ElasticacheRedis.ElasticacheRedis.Mget | src/cache/ElasticacheRedis.ts:74-77 | only the reader's raw `mget` is called, with the keys in order; its reply is returned unchanged |
| ElasticacheRedis.ElasticacheRedis.Delete | src/cache/ElasticacheRedis.ts:83-85 | only the primary deletes; its boolean is returned |
| ElasticacheRedis.ElasticacheRedis.Flush | src/cache/ElasticacheRedis.ts:90-92 | only the primary flushes |
| ElasticacheRedis.ElasticacheRedis.Close | src/cache/ElasticacheRedis.ts:97-99 | `close` reaches the primary and the reader exactly once each (twice on one client when they are the same object) |
| ElasticacheRedis.ElasticacheRedis.Clear | src/cache/ElasticacheRedis.ts:104-106 | `clear` is one more `flush` of the primary, so `flush` then `clear` logs two flushes |
| Redis.HostOf | src/cache/Redis.ts:20-30 | `endpoint.split(':')[0]`: a prefix of the endpoint with no `':'`, which runs up to the first `':'` or to the end |
| Redis.Redis.constructor | src/cache/Redis.ts:13-30 | two new, distinct clients, for the host of each endpoint, both on port 6379 |
| Redis.Redis.GetKey | src/cache/Redis.ts:36-38 | md5 of the key, computed locally: a 32-digit hex digest |
| Redis.Redis.Set | src/cache/Redis.ts:46-52 | one `set` on the primary with the same key, data and options; the reader unchanged |
| Redis.Redis.Mset | src/cache/Redis.ts:59-68 | one `multi` of `set … ex ttl` commands in key order and one `exec`, on the primary; every entry upserted; the reader unchanged |
| Redis.Redis.Get | src/cache/Redis.ts:74-76 | only the reader; its answer unchanged |
| Redis.Redis.Mget | src/cache/Redis.ts:82-85 | only the reader's raw `mget`, keys in order |
| Redis.Redis.Delete | src/cache/Redis.ts:91-93 | only the primary; its boolean returned |
| Redis.Redis.Flush | src/cache/Redis.ts:98-100 | only the primary |
| Redis.Redis.Close | src/cache/Redis.ts:105-107 | both clients closed, once each |
| Redis.Redis.Clear | src/cache/Redis.ts:112-114 | delegates to `flush`: one flush of the primary |
| Dataloader.RequestKeys | src/dataloader.ts:66-69 | the keys `mget` is asked for: one per request, in request order, request i's being `getKey(valueFn(values[i]))` |
| Dataloader.ParseAll | src/dataloader.ts:7-9 | every slot is parsed, null slots included. The call succeeds exactly when every slot parses, and then yields one value per slot, in order |
| Dataloader.MultiGetCachedValues | src/dataloader.ts:3-10 | exactly one `mget`, whose keys are `getKey` of each input in order; the result is the elementwise parse of the reply; nothing is written |
| Dataloader.IndexBy | src/dataloader.ts:49-57 | the object built by `reduce` with spread has a key exactly when some truthy element has that key; falsy elements are skipped |
| Dataloader.LastMatch | src/dataloader.ts:49-57 | the position of the last truthy element with the given key, or none when no truthy element has it |
| Dataloader.IndexByGet | src/dataloader.ts:49-57 | the object built by `reduce` with spread holds, under each key, the value of the last truthy element with that key |
| Dataloader.CacheReadyValues | src/dataloader.ts:20-29 | the object handed to `mset` has no keys exactly when no fetched value is truthy |
| Dataloader.CacheReadyValuesAt | src/dataloader.ts:20-29 | the `mset` object has a key exactly when some truthy value hashes to it by `getKey(cacheKeyFn(v))`, and then holds `JSON.stringify` of the last such value |
| Dataloader.MultiSetCacheValues | src/dataloader.ts:31-36 | `mset` is called once, with `maxAge`, exactly when the built object has keys; otherwise the cache is untouched |
| Dataloader.Missed | src/dataloader.ts:76-79 | the missed list holds exactly the inputs whose unhashed `valueFn` is not among the cached values' `cacheKeyFn` |
| Dataloader.MissedAppend | src/dataloader.ts:77-79 | the filter keeps input order: it commutes with concatenation |
| Dataloader.ReorderResults | src/dataloader.ts:48-62 | one entry per requested value. Each holds the last truthy result whose `getKey(cacheKeyFn(r))` equals the request's `getKey(valueFn(v))`, or nothing |
| Dataloader.LastMatchAppend | src/dataloader.ts:93 | in a concatenation `a + b`, a match in `b` beats any match in `a` |
| Dataloader.CachedValueWins | src/dataloader.ts:93-95 | with `batchResult.concat(cachedValues)`, a truthy cached value wins over a fetched value with the same hashed key |
| Dataloader.Resolve | src/dataloader.ts:73-95 | Same count: the cached values are returned, with no `callback` and no write. Otherwise `callback` is called once with the missed list; `mset` writes the object built from the fetched values exactly when some fetched value is truthy; and the result is `reorderResults` of the fetched values followed by the cached ones. The result has one entry per request |
| Dataloader.BatchCacheRun | src/dataloader.ts:64-96 | a `SyntaxError` exactly when some slot fails to parse; at most one `callback` call; a write only after a `callback` call; a reply of one slot per request never leads to a `callback` call or a write |
| Dataloader.BatchCacheFn | src/dataloader.ts:64-96 | the call's result, its `callback` arguments, its cache log (one `mget`, then the `mset` if any) and the store it leaves are those of `BatchCacheRun` on what `mget` answered |
| Dataloader.AsWrittenNeverFetches | src/dataloader.ts:73 | as written, against a cache answering one slot per key, `callback` is never called and nothing is written, whatever the store lacks |
| Dataloader.OneMissOnEmptyCache | src/dataloader.ts:73 | one request against an empty cache: as written, the parsed `null` slot is returned and `callback` is not called; when absent slots are dropped, the request is fetched |
| Dataloader.BatchCacheFnNeverFetches | src/dataloader.ts:64-96 | as written, `batchCacheFn` itself, against a cache whose `mget` answers one slot per key, makes only its `mget` call, never calls `callback`, and leaves the store unchanged |
| Dataloader.PresentSlots | src/dataloader.ts:7 | the values of the slots that hold one: as many as the reply exactly when every slot holds one; every kept value comes from a slot and every present slot is kept |
| Dataloader.PresentSlotsAppend | src/dataloader.ts:7 | dropping absent slots keeps reply order: it commutes with concatenation |
| Dataloader.PresentSlotsSingle | src/dataloader.ts:7 | a present slot is kept and an absent one dropped |
| Dataloader.BatchCacheRunDroppingMisses | src/dataloader.ts:64-96 | the loader with absent slots dropped before parsing: at most one `callback` call, and one result per request |
| Dataloader.HitKeysAreStoredRequests | src/dataloader.ts:76-79 | with absent slots dropped, a request's `valueFn` is among the hits' `cacheKeyFn` exactly when the store holds the request's key |
| Dataloader.ResolveFetchesMisses | src/dataloader.ts:73-82 | when the hits pick out exactly the stored requests, `callback` is skipped exactly when every request is stored; otherwise it gets exactly the unstored requests |
| Dataloader.DroppingMissesFetchesExactlyTheMisses | src/dataloader.ts:73-82 | with absent slots dropped, `callback` is called exactly when some request is not cached. It then gets every missing request and no cached one |
| ErrorHandler.IsGatewayError | src/errorHandler/errorHandler.ts:24-30 | true exactly for an object whose `extensions` is an object with a string `code`; a null `extensions` throws a `TypeError` |
| ErrorHandler.RemoteErrorLosesOnlyItsClass | src/errorHandler/errorHandler.ts:72-80 | `toJSON` and the trip from a subgraph keep the message, extensions and path of an error and lose only its class, so its gateway code is unchanged |
| ErrorHandler.UnmaskedCodes | src/errorHandler/errorHandler.ts:16-36 | the unmasked set is the five internal codes and the Apollo Server codes: eleven codes |
| ErrorHandler.WithCode | src/errorHandler/errorHandler.ts:128-131 | the caller's extensions are kept, except `code`, which is always the class's code |
| ErrorHandler.CustomErrorAtTheGateway | src/errorHandler/errorHandler.ts:116-123 | a `CustomGraphQLError` keeps the caller's code: after losing its class on the way to the gateway, it passes exactly when that code is an unmasked string, and is masked, keeping its path, otherwise |
| ErrorHandler.NotFoundError | src/errorHandler/errorHandler.ts:125-135 | message `'Error - Not Found: ' + m`, code `NOT_FOUND` overriding any caller code, other extensions and path kept |
| ErrorHandler.InternalServerError | src/errorHandler/errorHandler.ts:137-149 | message `m ?? 'Internal server error'`, code `INTERNAL_SERVER_ERROR` |
| ErrorHandler.GraphQLNotFoundError | src/errorHandler/errorHandler.ts:154-163 | message as given, code `NOT_FOUND` |
| ErrorHandler.UserInputError | src/errorHandler/errorHandler.ts:165-177 | message as given, code `BAD_USER_INPUT` |
| ErrorHandler.AuthenticationError | src/errorHandler/errorHandler.ts:179-191 | message as given, code `UNAUTHENTICATED` |
| ErrorHandler.ForbiddenError | src/errorHandler/errorHandler.ts:193-205 | message as given, code `FORBIDDEN` |
| ErrorHandler.Masked | src/errorHandler/errorHandler.ts:57-68 | a masked error has message 'Internal server error', code `INTERNAL_SERVER_ERROR` as its only extension, and the original path |
| ErrorHandler.ErrorHandler | src/errorHandler/errorHandler.ts:44-70 | A GraphQL error passes unchanged. A gateway-shaped error passes exactly when its code is in the unmasked set. Every other error is masked, so the output is the formatted error or a value depending only on the path. The only failure is the `TypeError` of a null `extensions` |
| ErrorHandler.GatewayErrorHandler | src/errorHandler/errorHandler.ts:81-99 | A gateway-shaped error with an unmasked code passes unchanged. Otherwise the answer is `errorHandler`'s. The one difference is a GraphQL error with null `extensions`, which only the gateway handler rejects |
| ErrorHandler.RemoteInternalErrorsPass | src/errorHandler/errorHandler.ts:72-99 | an error carrying any internal code still passes both handlers unchanged after losing its class between subgraph and gateway |
| ErrorHandler.MaskedErrorPasses | src/errorHandler/errorHandler.ts:57-99 | a masked error forwarded to the gateway passes there unchanged |
| ErrorHandler.UnknownCodeIsMasked | src/errorHandler/errorHandler.ts:52-99 | a gateway-shaped error with a code outside the set is masked, keeping its path |
| Pagination.PaginationInput.constructor | src/pagination/validatePagination.ts:6-10 | the mutable input object holds the given cursors and counts |
| Pagination.Conflict | src/pagination/validatePagination.ts:15-20 | one of the four refused pairs is set exactly when the input mixes the forward page (`after` or a truthy `first`) with the backward one (`before` or a truthy `last`) |
| Pagination.Normalize | src/pagination/validatePagination.ts:66-80 | `undefined` stays `undefined`. A count in (0, max] is kept. One above max becomes max. `null` or a number at most 0 becomes the default, capped at max. With positive default and max, the result lies in (0, max] |
| Pagination.Validate | src/pagination/validatePagination.ts:6-83 | An absent input gives `{first: defaultPageSize}`. An input is rejected exactly when it sets one of the four truthy pairs or a cursor decoding to a negative number, always with code `BAD_USER_INPUT` and the message for the first failed test. Otherwise `before` and `after` are unchanged; a falsy count next to its set cursor becomes the default, capped at max, and every other count is normalized; a count stays `undefined` only when neither it nor its cursor is set; and with positive defaults every count lies in (0, maxPageSize] |
| Pagination.ValidatePagination | src/pagination/validatePagination.ts:6-83 | A null input yields a new object. Otherwise the same object is updated in place and returned as `Validate` says. On an error the object is left untouched |
| Pagination.ZeroCountComesBackConflicting | src/pagination/validatePagination.ts:15-68 | `{first: 0, last: 10}` is accepted and returned as `{first: 30, last: 10}`, which the validator itself rejects |
| Pagination.NullCountsComeBackConflicting | src/pagination/validatePagination.ts:15-72 | `{first: null, last: null}` is returned as `{first: 30, last: 30}`, which the validator rejects |
| Pagination.ConflictGiven | src/pagination/validatePagination.ts:15-20 | with only numbers counted as set, a conflict is again exactly a mix of the forward and the backward page |
| Pagination.NormalizeGiven | src/pagination/validatePagination.ts:66-80 | with only numbers counted as set: `null` and `undefined` stay as they are; a number in (0, max] is kept; one at most 0 becomes the default, capped at max; one above max becomes max |
| Pagination.ValidateGiven | src/pagination/validatePagination.ts:6-83 | the validator with one notion of "set": it rejects exactly a conflicting pair or a negative cursor, keeps the cursors and bounds every count |
| Pagination.ValidateGivenIsIdempotent | src/pagination/validatePagination.ts:15-80 | with one notion of "set", an accepted input comes back conflict-free and is accepted again unchanged |
| SentryPlugin.Reporter.constructor | src/plugins/sentryPlugin.ts:58-77 | the Sentry sink starts with no captured reports |
| SentryPlugin.CodeString | src/plugins/sentryPlugin.ts:53 | `err.extensions?.code?.toString()` is absent exactly when there is no code or it is null or undefined; a string code is itself |
| SentryPlugin.Skipped | src/plugins/sentryPlugin.ts:53-55 | a skipped error has a code that is not null or undefined, and it is never `INTERNAL_SERVER_ERROR` |
| SentryPlugin.NatToString | src/plugins/sentryPlugin.ts:70 | a path index is rendered as decimal digits, with no leading zero |
| SentryPlugin.NatToStringRoundTrip | src/plugins/sentryPlugin.ts:70 | the rendered digits read back as the same index |
| SentryPlugin.JoinPath | src/plugins/sentryPlugin.ts:70 | `path.join(' > ')`: empty for an empty path, the segment itself for a one-segment path |
| SentryPlugin.JoinPathAppend | src/plugins/sentryPlugin.ts:70 | for any split of a path into two non-empty parts, the breadcrumb is the two parts' breadcrumbs joined by `' > '` |
| SentryPlugin.Selected | src/plugins/sentryPlugin.ts:50-55 | an error is kept exactly when it is in the list and its code's string form is not in `NO_REPORT_ERRORS` |
| SentryPlugin.SelectedAppend | src/plugins/sentryPlugin.ts:50-78 | the selection keeps the order of `ctx.errors`: it commutes with concatenation |
| SentryPlugin.SelectedCounts | src/plugins/sentryPlugin.ts:50-78 | each error not skipped is reported exactly as often as it occurs, a skipped one never |
| SentryPlugin.ReportsFor | src/plugins/sentryPlugin.ts:46-78 | no operation, no reports; otherwise one report per selected error, in order |
| SentryPlugin.DidEncounterErrors | src/plugins/sentryPlugin.ts:43-80 | the loop appends exactly the reports of `ReportsFor` to the sink, in order |
| SentryPlugin.UnguardedErrorsAreReported | src/plugins/sentryPlugin.ts:10-55 | an error with code `INTERNAL_SERVER_ERROR` or no code at all is reported when the operation is known |
| SentryPlugin.NoReportErrorsAreUnmaskedCodes | src/plugins/sentryPlugin.ts:10-26 | `NO_REPORT_ERRORS` is exactly the unmasked set without `INTERNAL_SERVER_ERROR`: of the internal codes, only that one is reported |

## Left out

- md5: the digest algorithm (RFC 1321) is a parameter whose results are 32 hex digits. So the test vector `getKey('test') = '098f6bcd4621d373cade4e832627b4f6'` is not derived.
- `JSON.parse`, `JSON.stringify` and JavaScript truthiness are parameters (`Dataloader.ValueOps`). A `null` slot is parsed like any other, as `JSON.parse(null)` is. The parameter is not required to answer `null` for it, though `JSON.parse(null)` is `null` and never throws; `Dataloader.OneMissOnEmptyCache` assumes only that it succeeds.
- The base64 decoding and `parseInt` of a cursor are one parameter `decode`. Its `None` stands for NaN.
- Redis transport is not modelled:
  - connections, timeouts and rejected promises;
  - the default TTL of apollo's `RedisCache`, and key expiry (a TTL is recorded, never applied);
  - the all-or-nothing behaviour of `multi/exec`.
- The servers a new `Redis` connects to are modelled as empty.
- `MGET` with no keys: Redis rejects it, but the model answers an empty list.
- Asynchrony: every `await` is taken in program order. `Promise.all` in `close` is modelled as the primary's close, then the reader's.
- Interface conformance: without traits, `ElasticacheRedis` and `Redis` are not declared as implementations of `CacheInterface.Cache`. Their contracts state each call's effect on the primary's or the reader's store separately. `Cache.OneSlotPerKey` states the reply shape of a Redis `MGET`, which `RedisClient.RedisClient.Mget` gives; `Dataloader.BatchCacheFnNeverFetches` assumes it of the cache.
- Replication from primary to reader is not modelled: the two stores are independent, so the model states no read-after-write through a wrapper. Two endpoints naming the same server still get two unrelated stores.
- The `cacheReadyValues.constructor === Object` test is always true and is not modelled.
- `callback` and `cacheKeyFn`: both are total functions in the model. In JavaScript `cacheKeyFn` may throw on a parsed `null`, and `callback` may throw.
- GraphQL runtime:
  - `unwrapResolverError` and `instanceof` are reduced to one flag on the thrown object;
  - the formatted error carries only message, path and extensions;
  - locations built from `positions` and `source`, `originalError`, and the `name` set with `Object.defineProperty` are left out.
- Apollo Server's error code list comes from its version 4. It is not part of this repository.
- Sentry scope handling is left out: tags other than `kind`, the `variables` extra, the breadcrumb category and level, and `console.log`.
- Pagination counts are integers. Fractional and NaN counts are not modelled.
- The second `throw` in validatePagination.ts (lines 24-31) cannot run and is not modelled.
- `src/express/sentryMiddleware.ts`, the ISO string scalar and `src/index.ts` are not part of this model.
- Where the comment at dataloader.ts:71-72 and the code disagree, the model follows the code:
  - the comment says that equal lengths mean every value was found in the cache, so absent entries should count as misses;
  - the code parses every slot, so a malformed entry throws a `SyntaxError` for the whole batch (`Dataloader.BatchCacheRun`);
  - the code also counts absent slots, which is the first finding below.

## Findings

| source | as written | input that shows it | evidently intended | confidence | as-written member | corrected member |
|---|---|---|---|---|---|---|
| src/dataloader.ts:7-9,73 | every `mget` slot is parsed, `null` slots included, and the parsed list is compared by count with the requests; a Redis `MGET` always answers one slot per key, so the count always matches | one request, empty cache: the reply `[null]` parses to `[null]`, which is returned; `callback` is never called | only real hits are counted, so `callback` receives exactly the requests missing from the cache | medium, not executed | Dataloader.AsWrittenNeverFetches, Dataloader.BatchCacheFnNeverFetches, Dataloader.OneMissOnEmptyCache | Dataloader.DroppingMissesFetchesExactlyTheMisses |
| src/pagination/validatePagination.ts:15-72 | the conflict test judges counts by truthiness, but the reset afterwards turns `0` and `null` into `defaultPageSize` | `{first: 0, last: 10}` returns `{first: 30, last: 10}`; `{first: null, last: null}` returns `{first: 30, last: 30}`; both outputs are rejected by the same function | the returned input never sets a pair the validator forbids; one notion of a set count throughout makes validation idempotent | low, not executed | Pagination.ZeroCountComesBackConflicting, Pagination.NullCountsComeBackConflicting | Pagination.ValidateGivenIsIdempotent |
