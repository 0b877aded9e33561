# rabbit-lru-cache, modelled in Dafny

rabbit-lru-cache wraps a process-local LRU cache so that every instance with
the same cache name stays coherent with the others. Whenever one instance
deletes a key (`del`) or empties itself (`reset`), it publishes that
invalidation on a RabbitMQ fanout exchange named after the cache. Each
instance consumes its own exclusive queue bound to that exchange. It applies
invalidations from other instances and ignores its own, which it recognises
by the `x-cache-id` header. After `close` begins, every public operation
except `close` itself fails with a `ClosingError`. The repository also has a small utility, `once`,
that runs a wrapped function until one call returns and then caches that
result.

The project has four modules:

- `Results` (`results.dfy`): `Option`, `Result`, `Outcome` and the `Error`
  values that stand for the source's exceptions.
- `Protocol` (`protocol.dfy`): the pure part of the wire protocol. It covers
  exchange and queue names, `Encode`/`Decode` of message bodies, the effect of
  one received message on a store (`Receive`) and of a sequence of messages
  (`ReceiveAll`), and lemmas about two instances sharing an exchange.
- `RabbitLruCache` (`rabbit_lru_cache.dfy`): the façade. It is a class
  `Cache<T>` with the mutable `closing` flag, the local `store` (a map that
  stands in for the LRU cache) and an append-only `outbox` of everything
  published. It also has the factory with its option checks, and two client
  methods that drive instances through a coherence scenario and a closing
  scenario.
- `OnceUtil` (`once.dfy`): the one-shot gate. It is a class `OnceFunc` with the
  captured `executed`/`result` variables as fields. The wrapped function is a
  `Callee` object whose answers may be values or failures. `Step`/`Run` model
  the gate as a value and carry lemmas about any sequence of calls.

Two instances on one exchange are modelled by handing the entries of one
instance's `outbox` (through `Deliver`/`Deliveries`) to the other instance's
`HandleMessage` or `ReceiveAll`.

`src/rabbit-lru-cache.ts` has no reconnection logic, no `getOrLoad` and no
listener registry, and its consumer simply returns on a null message (lines
47-50); the model covers that file's logic apart from what "## Left out"
lists.

## Model

| member | source | states |
|---|---|---|
| Protocol.ExchangeName | src/rabbit-lru-cache.ts:36 | the exchange name is `rabbit-lru-cache-` followed by exactly the cache name |
| Protocol.QueueName | src/rabbit-lru-cache.ts:38 | the queue name is the exchange name, `-`, then exactly the instance id |
| Protocol.ExchangeNameInjective | src/rabbit-lru-cache.ts:36 | distinct cache names never share an exchange |
| Protocol.QueueNameInjective | src/rabbit-lru-cache.ts:36-38 | with ids of one length (uuid v1 ids all have the same length), distinct (name, id) pairs get distinct queue names |
| Protocol.QueueNameAmbiguousWithoutFixedIdLength | src/rabbit-lru-cache.ts:38 | without that length condition, two different (name, id) pairs can give the same queue name, because `-` may occur in names |
| Protocol.Encode | src/rabbit-lru-cache.ts:86-91 | the body published for a reset or a deletion decodes back to that same command |
| Protocol.Decode | src/rabbit-lru-cache.ts:55-61 | the body decodes to Reset exactly when it is `reset`; to a deletion exactly when it is not `reset` and starts with `del:`, with a key such that the body is `del:` + key; otherwise to Other |
| Protocol.DelRoundTrip | src/rabbit-lru-cache.ts:58-59 | for every key, including `""` and keys that contain `:`, `del:`+key decodes to a deletion of exactly that key and is never `reset` |
| Protocol.Deliver | src/rabbit-lru-cache.ts:77-81 | a published message reaches a subscriber with its body unchanged and the publisher's id in `x-cache-id` |
| Protocol.Deliveries | src/rabbit-lru-cache.ts:77-81 | a queue delivers every published message, in publishing order |
| Protocol.Receive | src/rabbit-lru-cache.ts:46-62 | a null message or one carrying the receiver's own id leaves the store unchanged; otherwise `reset` empties the store, a `del:` body removes exactly the key after the prefix, and any other body leaves the store unchanged |
| Protocol.ReceiveAll | src/rabbit-lru-cache.ts:46-62 | receiving any sequence of messages only removes entries and never changes the value of an entry that is kept |
| Protocol.OwnMessagesIgnored | src/rabbit-lru-cache.ts:51-54 | any sequence of self-published or null messages leaves the store exactly as it was |
| Protocol.ForeignDelSticks | src/rabbit-lru-cache.ts:58-60 | once a foreign deletion of `k` has been received, `k` is absent after whatever messages follow |
| Protocol.ForeignResetSticks | src/rabbit-lru-cache.ts:56-57 | once a foreign reset has been received, the store is empty after whatever messages follow |
| Protocol.PeerReceivesOutbox | src/rabbit-lru-cache.ts:46-62 | when another instance receives a publisher's whole outbox, every key the publisher deleted is gone and a published reset leaves it empty; when the publisher receives its own outbox, its store is unchanged |
| RabbitLruCache.CheckOptions | src/rabbit-lru-cache.ts:23-27 | the options pass exactly when the options, the name, the LRU options and the connect options are all present and the name is not empty; otherwise the first failing check, in the order options, name present, name not empty, LRU options, connect options, is the one reported, each under its own label |
| RabbitLruCache.CreateRabbitLRUCache | src/rabbit-lru-cache.ts:22-45 | the factory fails with the option-check error exactly when a check fails; otherwise it returns a fresh, open, valid instance with the given name and id, an empty store and nothing published |
| RabbitLruCache.Cache.constructor | src/rabbit-lru-cache.ts:29-44 | a new instance is open, its store is empty, its outbox is empty, and its exchange and queue names are derived from the cache name and id |
| RabbitLruCache.Cache.Guard | src/rabbit-lru-cache.ts:64-68 | the guard fails exactly when closing, with `ClosingError("Cache is closing or has been closed")` |
| RabbitLruCache.Cache.Decorated | src/rabbit-lru-cache.ts:70-75 | a wrapped store operation fails with the closing error once closing; otherwise it returns what the operation returns |
| RabbitLruCache.Cache.Publish | src/rabbit-lru-cache.ts:77-81 | publishing appends exactly one message, the encoded body with this instance's id; the store and the flag are unchanged |
| RabbitLruCache.Cache.Del | src/rabbit-lru-cache.ts:84-88 | on an open instance, `k` is removed, every other entry is kept, and exactly one `("del:"+k, cacheId)` is published; once closing, it fails with the closing error and changes neither the store nor the outbox |
| RabbitLruCache.Cache.Reset | src/rabbit-lru-cache.ts:89-93 | on an open instance, the store is emptied and exactly one `("reset", cacheId)` is published; once closing, it fails with the closing error and changes nothing |
| RabbitLruCache.Cache.HandleMessage | src/rabbit-lru-cache.ts:46-62 | the consumer callback leaves the store as `Receive` says; it never publishes and never touches the closing flag |
| RabbitLruCache.Cache.Close | src/rabbit-lru-cache.ts:126-135 | after close, the instance is closing and its store is empty; the outbox is unchanged; the store stays empty from then on, because `Valid` keeps `closing ==> store == map[]` |
| RabbitLruCache.Cache.Get | src/rabbit-lru-cache.ts:94 | fails with the closing error once closing; otherwise returns the stored value when there is one and a miss when there is not |
| RabbitLruCache.Cache.Peek | src/rabbit-lru-cache.ts:102 | same as `Get`: the closing error, or the stored value or a miss |
| RabbitLruCache.Cache.Has | src/rabbit-lru-cache.ts:98 | fails with the closing error once closing; otherwise true exactly when the key is stored |
| RabbitLruCache.Cache.Keys | src/rabbit-lru-cache.ts:100 | fails with the closing error once closing; otherwise returns exactly the stored keys |
| RabbitLruCache.Cache.Values | src/rabbit-lru-cache.ts:97 | fails with the closing error once closing; otherwise returns exactly the values stored under some key |
| RabbitLruCache.Cache.Set | src/rabbit-lru-cache.ts:103 | fails with the closing error once closing and leaves the store unchanged; otherwise stores the value under the key and publishes nothing |
| RabbitLruCache.Cache.GetItemCount | src/rabbit-lru-cache.ts:110-113 | fails with the closing error once closing; otherwise returns the number of entries |
| RabbitLruCache.Cache.GetLength | src/rabbit-lru-cache.ts:114-117 | fails with the closing error once closing; otherwise returns the total length, which is one per entry by default |
| RabbitLruCache.Cache.GetMax | src/rabbit-lru-cache.ts:118-121 | fails with the closing error once closing; otherwise returns the configured `max` |
| RabbitLruCache.Cache.GetMaxAge | src/rabbit-lru-cache.ts:122-125 | fails with the closing error once closing; otherwise returns the configured `maxAge` |
| RabbitLruCache.Cache.DoesAllowStale | src/rabbit-lru-cache.ts:106-109 | fails with the closing error once closing; otherwise returns the configured `allowStale` |
| RabbitLruCache.DeleteReachesPeer | src/rabbit-lru-cache.ts:84-88 | A deletes `k` and its message reaches both A and B. After that, neither instance holds `k`, A has ignored its own message, and B keeps its other key |
| RabbitLruCache.PeerAfterDel | src/rabbit-lru-cache.ts:77-88 | after A deletes two keys through `del`, another instance that receives A's whole outbox holds neither key, and A receiving its own outbox keeps its store as it is |
| RabbitLruCache.ClosedCacheRefuses | src/rabbit-lru-cache.ts:64-68 | after close, `get`, `del` and `set` each fail with the closing error, and nothing has been published |
| OnceUtil.Callee.Invoke | src/utils/once.ts:11 | invoking the wrapped function logs its arguments once and answers as its behaviour says for that invocation number |
| OnceUtil.Step | src/utils/once.ts:8-13 | a call keeps the gate consistent: `result` holds a value exactly when `executed` is set |
| OnceUtil.Run | src/utils/once.ts:7-14 | a sequence of calls yields one result per call and keeps the gate consistent |
| OnceUtil.ExecutedIsFinal | src/utils/once.ts:8-10 | once executed, the gate never changes, never invokes the wrapped function again, and returns the cached result whatever the arguments |
| OnceUtil.FailuresAreNotCached | src/utils/once.ts:11-12 | while every invocation fails, each call invokes the wrapped function again, passes its failure on, and leaves `executed` false |
| OnceUtil.FirstSuccessIsCached | src/utils/once.ts:8-13 | the calls up to and including the first successful one invoke the wrapped function (`i+1` invocations in all); that call's value is cached and returned by every later call |
| OnceUtil.OnceFunc.constructor | src/utils/once.ts:5-6 | a new gate has not executed and holds no result |
| OnceUtil.OnceFunc.Call | src/utils/once.ts:7-14 | a call is one `Step`. When executed, it returns the cached result, invokes nothing and keeps `executed`/`result`. Otherwise it invokes the wrapped function once and returns its answer; a value is cached and sets `executed`, and a failure leaves both fields as they were |
| OnceUtil.Once | src/utils/once.ts:1-6 | given a non-function, fails with `TypeError("Input parameter must be a function")`; otherwise returns a fresh gate that has not executed |
| OnceUtil.OnceRejectsNonFunction | test/utils/once.spec.ts:5-13 | `once` of a plain object fails with a TypeError carrying the expected message |
| OnceUtil.OnceIncrement | test/utils/once.spec.ts:15-26 | a wrapped counter gives 1 on both calls and runs only once |
| OnceUtil.OnceRetriesAfterFailure | src/utils/once.ts:11-12 | a wrapped function that fails on its first invocation is invoked again on the next call, and the value it then returns is cached for the third call |

## Left out

- The amqplib transport is not modelled. This covers connecting, creating channels, declaring and binding the exchange and queue, consuming, cancelling, and closing channels and the connection. Publishing is an append to `outbox`, and delivery is a call of `HandleMessage`.
- Promise and await sequencing is not modelled. Construction and `close` are atomic here. So a message that arrives between `closing = true` and the final `cache.reset()` is not represented.
- RabbitLruCache.Cache.Close: always ends with an empty store. In the source, if cancelling the consumer or closing a channel or the connection rejects, `cache.reset()` is never reached and the instance stays closing with its entries; every read is guarded, so nothing can observe them.
- The instance id comes from a uuid generator in the source; here it is a parameter of the factory.
- The UTF-8 conversion of bodies (`Buffer.from`, `toString`) is not modelled, and bodies are strings. A key with an unpaired surrogate would, in the source, not survive that conversion.
- A message whose `properties.headers` object is missing altogether is not modelled (the source would throw reading it); a missing `x-cache-id` header is modelled as `publisherId == None`.
- The behaviour of calling `close` twice is not modelled: it depends on amqplib (cancelling on a closed channel). In the model, a second close is harmless.
- The LRU store's internals are not modelled: eviction by `max`, recency order, `maxAge` expiry, and custom `length`/`lengthCalculator`. The store is a plain map.
- RabbitLruCache.Cache.Decorated: stands for `prune`, `dump`, `load`, `forEach`, `rforEach` and `lengthCalculator`. It states only the guard, because the model omits those operations' effect on the store (expiry, serialisation, callbacks).
- RabbitLruCache.Cache.Get: does not model marking the entry most recently used or an expired entry being dropped.
- RabbitLruCache.Cache.Set: always stores and returns true. The LRU store's refusal of an entry longer than `max`, and eviction of older entries, are not modelled.
- RabbitLruCache.Cache.Keys: returns a set, so the LRU store's recency order of the keys is not stated.
- RabbitLruCache.Cache.Values: returns a set, so recency order and repeated values are not stated.
- RabbitLruCache.Cache.GetLength: assumes the default length of one per entry, so it coincides with `GetItemCount`.
- RabbitLruCache.Cache.Peek: coincides with `Get`, because the only difference between them in the LRU store is the recency update, which is not modelled.
- RabbitLruCache.CheckOptions: names the failed check instead of reproducing the text of Node's `assert.notEqual` message. Both `null` and `undefined` are modelled as `None`.
- OnceUtil.OnceFunc.Call: a wrapped function that calls back into the same gate while it runs is not modelled (`behaviour` is a function of the invocation number and arguments only). In the source such a re-entrant call finds `executed` still false, invokes the function a second time and caches its value, and the outer call then overwrites `result` with its own value; so the function runs twice and the cached value is not that of the first invocation to return.
- The `ClosingError` class lives in `src/errors/ClosingError`, which is not part of this model. It is the value `ClosingError(message)`.
- `src/index.ts` (a re-export), the example servers, the test mocks and `test/index.spec.ts` are not part of this model.
