/** One rabbit-lru-cache instance: a local key/value store kept coherent with
    the other instances of the same name by publishing every `del` and `reset`
    on a shared fanout exchange, and by applying what the others publish.

    The broker is abstracted away: what an instance publishes is appended to
    its `outbox`, and what its queue delivers is handed to `HandleMessage`.
    The LRU store is a plain map. */
module RabbitLruCache {
  import opened Results
  import opened Protocol

  const ClosingMessage := "Cache is closing or has been closed"

  /** The options handed to the LRU store; only the values the facade's
      accessors report back are kept. */
  datatype LruOptions = LruOptions(max: nat, maxAge: nat, allowStale: bool)

  /** The broker connection options, passed through untouched. */
  datatype ConnectOptions = ConnectOptions(url: string)

  /** The factory's options; `None` stands for `null` or `undefined`. */
  datatype CacheOptions = CacheOptions(
    name: Option<string>,
    lruCacheOptions: Option<LruOptions>,
    amqpConnectOptions: Option<ConnectOptions>)

  /** The option checks the factory runs before anything else, in their
      order: the first that fails is the one reported. */
  function CheckOptions(options: Option<CacheOptions>): (r: Outcome)
    ensures r == Pass <==>
              options.Some? && options.value.name.Some? && options.value.name.value != "" &&
              options.value.lruCacheOptions.Some? && options.value.amqpConnectOptions.Some?
    ensures r.Fail? ==> r.error.AssertionError?
    ensures options.None? ==> r == Fail(AssertionError("options"))
    ensures options.Some? && options.value.name.None? ==> r == Fail(AssertionError("options.name"))
    ensures options.Some? && options.value.name == Some("") ==> r == Fail(AssertionError("options.name empty"))
    ensures options.Some? && options.value.name.Some? && options.value.name.value != "" &&
              options.value.lruCacheOptions.None? ==>
              r == Fail(AssertionError("options.LRUCacheOptions"))
    ensures options.Some? && options.value.name.Some? && options.value.name.value != "" &&
              options.value.lruCacheOptions.Some? && options.value.amqpConnectOptions.None? ==>
              r == Fail(AssertionError("options.amqpConnectOptions"))
  {
    if options.None? then Fail(AssertionError("options"))
    else if options.value.name.None? then Fail(AssertionError("options.name"))
    else if options.value.name.value == "" then Fail(AssertionError("options.name empty"))
    else if options.value.lruCacheOptions.None? then Fail(AssertionError("options.LRUCacheOptions"))
    else if options.value.amqpConnectOptions.None? then Fail(AssertionError("options.amqpConnectOptions"))
    else Pass
  }

  class Cache<T(==)> {
    const name: string
    const cacheId: string
    const exchangeName: string
    const queueName: string
    const lruOptions: LruOptions
    var closing: bool
    var store: map<string, T>
    var outbox: seq<Envelope>

    /** The topology names follow from the cache name and the instance id;
        everything published carries this instance's id and is a reset or a
        deletion; once closing, the store is and stays empty. */
    ghost predicate Valid()
      reads this
    {
      && exchangeName == ExchangeName(name)
      && queueName == QueueName(exchangeName, cacheId)
      && (forall i :: 0 <= i < |outbox| ==> outbox[i].cacheId == cacheId && !Decode(outbox[i].content).Other?)
      && (closing ==> store == map[])
    }

    /** The instance once its option checks passed and its topology exists. */
    constructor (name: string, cacheId: string, lruOptions: LruOptions)
      ensures Valid()
      ensures this.name == name && this.cacheId == cacheId && this.lruOptions == lruOptions
      ensures !closing && store == map[] && outbox == []
    {
      this.name := name;
      this.cacheId := cacheId;
      this.lruOptions := lruOptions;
      var exchange := ExchangeName(name);
      this.exchangeName := exchange;
      this.queueName := QueueName(exchange, cacheId);
      closing := false;
      store := map[];
      outbox := [];
    }

    /** The closing guard: fails exactly when `close` has begun. */
    function Guard(): (r: Outcome)
      reads this
      ensures r.Fail? <==> closing
      ensures r.Fail? ==> r.error == ClosingError(ClosingMessage)
    {
      if closing then Fail(ClosingError(ClosingMessage)) else Pass
    }

    /** Publishing: the body goes out with this instance's id in `x-cache-id`. */
    method Publish(c: Command)
      requires Valid() && !c.Other?
      modifies this
      ensures Valid()
      ensures outbox == old(outbox) + [Envelope(Encode(c), cacheId)]
      ensures store == old(store) && closing == old(closing)
    {
      outbox := outbox + [Envelope(Encode(c), cacheId)];
    }

    /** Deletes `key` here and tells the other instances to do the same. */
    method Del(key: string) returns (r: Outcome)
      requires Valid()
      modifies this
      ensures Valid() && closing == old(closing)
      ensures old(closing) ==> r == Fail(ClosingError(ClosingMessage)) && store == old(store) && outbox == old(outbox)
      ensures !old(closing) ==> r == Pass && store == old(store) - {key}
      ensures !old(closing) ==> outbox == old(outbox) + [Envelope(DelPrefix + key, cacheId)]
    {
      r := Guard();
      if r.Fail? {
        return;
      }
      Publish(Command.Del(key));
      store := store - {key};
    }

    /** Empties the store here and tells the other instances to do the same. */
    method Reset() returns (r: Outcome)
      requires Valid()
      modifies this
      ensures Valid() && closing == old(closing)
      ensures old(closing) ==> r == Fail(ClosingError(ClosingMessage)) && store == old(store) && outbox == old(outbox)
      ensures !old(closing) ==> r == Pass && store == map[]
      ensures !old(closing) ==> outbox == old(outbox) + [Envelope(ResetMessage, cacheId)]
    {
      r := Guard();
      if r.Fail? {
        return;
      }
      Publish(Command.Reset);
      store := map[];
    }

    /** The consumer callback: ignores an absent message and this instance's
        own messages, and otherwise applies a reset or a deletion. It is not
        guarded by the closing flag. */
    method HandleMessage(msg: Option<Delivery>)
      requires Valid()
      modifies this
      ensures Valid()
      ensures store == Receive(old(store), cacheId, msg)
      ensures closing == old(closing) && outbox == old(outbox)
    {
      if msg.None? {
        return;
      }
      var publisherCacheId := msg.value.publisherId;
      if publisherCacheId == Some(cacheId) {
        return;
      }
      var content := msg.value.content;
      if content == ResetMessage {
        store := map[];
      } else if StartsWith(content, DelPrefix) {
        var key := content[|DelPrefix|..];
        store := store - {key};
      }
    }

    /** Sets the closing flag and leaves the store empty. */
    method Close()
      requires Valid()
      modifies this
      ensures Valid()
      ensures closing && store == map[] && outbox == old(outbox)
    {
      closing := true;
      store := map[];
    }

    // -------------------------------------------------------------------------
    // Guarded accessors: each fails with the closing error, changing nothing,
    // once closing; otherwise it is the store's own operation.

    method Get(key: string) returns (r: Result<Option<T>>)
      ensures closing ==> r == Err(ClosingError(ClosingMessage))
      ensures !closing ==> r.Ok? && (r.value.Some? <==> key in store)
      ensures !closing && key in store ==> r.value.value == store[key]
    {
      var guard := Guard();
      if guard.Fail? {
        return Err(guard.error);
      }
      r := Ok(if key in store then Some(store[key]) else None);
    }

    method Peek(key: string) returns (r: Result<Option<T>>)
      ensures closing ==> r == Err(ClosingError(ClosingMessage))
      ensures !closing ==> r.Ok? && (r.value.Some? <==> key in store)
      ensures !closing && key in store ==> r.value.value == store[key]
    {
      var guard := Guard();
      if guard.Fail? {
        return Err(guard.error);
      }
      r := Ok(if key in store then Some(store[key]) else None);
    }

    method Has(key: string) returns (r: Result<bool>)
      ensures closing ==> r == Err(ClosingError(ClosingMessage))
      ensures !closing ==> r.Ok? && (r.value <==> key in store)
    {
      var guard := Guard();
      if guard.Fail? {
        return Err(guard.error);
      }
      r := Ok(key in store);
    }

    method Keys() returns (r: Result<set<string>>)
      ensures closing ==> r == Err(ClosingError(ClosingMessage))
      ensures !closing ==> r.Ok? && forall k :: k in r.value <==> k in store
    {
      var guard := Guard();
      if guard.Fail? {
        return Err(guard.error);
      }
      r := Ok(store.Keys);
    }

    method Values() returns (r: Result<set<T>>)
      ensures closing ==> r == Err(ClosingError(ClosingMessage))
      ensures !closing ==> r.Ok? && forall v :: v in r.value <==> exists k :: k in store && store[k] == v
    {
      var guard := Guard();
      if guard.Fail? {
        return Err(guard.error);
      }
      r := Ok(store.Values);
    }

    method Set(key: string, value: T) returns (r: Result<bool>)
      requires Valid()
      modifies this
      ensures Valid() && closing == old(closing) && outbox == old(outbox)
      ensures old(closing) ==> r == Err(ClosingError(ClosingMessage)) && store == old(store)
      ensures !old(closing) ==> r == Ok(true) && store == old(store)[key := value]
    {
      var guard := Guard();
      if guard.Fail? {
        return Err(guard.error);
      }
      store := store[key := value];
      r := Ok(true);
    }

    method GetItemCount() returns (r: Result<nat>)
      ensures closing ==> r == Err(ClosingError(ClosingMessage))
      ensures !closing ==> r == Ok(|store|)
    {
      var guard := Guard();
      if guard.Fail? {
        return Err(guard.error);
      }
      r := Ok(|store|);
    }

    /** The store's total length, with the default length of one per entry. */
    method GetLength() returns (r: Result<nat>)
      ensures closing ==> r == Err(ClosingError(ClosingMessage))
      ensures !closing ==> r == Ok(|store|)
    {
      var guard := Guard();
      if guard.Fail? {
        return Err(guard.error);
      }
      r := Ok(|store|);
    }

    method GetMax() returns (r: Result<nat>)
      ensures closing ==> r == Err(ClosingError(ClosingMessage))
      ensures !closing ==> r == Ok(lruOptions.max)
    {
      var guard := Guard();
      if guard.Fail? {
        return Err(guard.error);
      }
      r := Ok(lruOptions.max);
    }

    method GetMaxAge() returns (r: Result<nat>)
      ensures closing ==> r == Err(ClosingError(ClosingMessage))
      ensures !closing ==> r == Ok(lruOptions.maxAge)
    {
      var guard := Guard();
      if guard.Fail? {
        return Err(guard.error);
      }
      r := Ok(lruOptions.maxAge);
    }

    method DoesAllowStale() returns (r: Result<bool>)
      ensures closing ==> r == Err(ClosingError(ClosingMessage))
      ensures !closing ==> r == Ok(lruOptions.allowStale)
    {
      var guard := Guard();
      if guard.Fail? {
        return Err(guard.error);
      }
      r := Ok(lruOptions.allowStale);
    }

    /** The guard wrapped around a store operation the model does not look
        into (`prune`, `dump`, `load`, `forEach`, `rforEach`,
        `lengthCalculator`): `inner` is what that operation returns. */
    method Decorated<R>(inner: R) returns (r: Result<R>)
      ensures closing ==> r == Err(ClosingError(ClosingMessage))
      ensures !closing ==> r == Ok(inner)
    {
      var guard := Guard();
      if guard.Fail? {
        return Err(guard.error);
      }
      r := Ok(inner);
    }
  }

  /** The factory: the option checks, then a fresh open instance with id
      `cacheId` and an empty store. */
  method CreateRabbitLRUCache<T(==)>(options: Option<CacheOptions>, cacheId: string) returns (r: Result<Cache<T>>)
    ensures r.Err? <==> CheckOptions(options).Fail?
    ensures r.Err? ==> r.error == CheckOptions(options).error
    ensures r.Ok? ==> fresh(r.value) && r.value.Valid()
    ensures r.Ok? ==> r.value.name == options.value.name.value && r.value.cacheId == cacheId
    ensures r.Ok? ==> r.value.lruOptions == options.value.lruCacheOptions.value
    ensures r.Ok? ==> !r.value.closing && r.value.store == map[] && r.value.outbox == []
  {
    var check := CheckOptions(options);
    if check.Fail? {
      return Err(check.error);
    }
    var cache := new Cache<T>(options.value.name.value, cacheId, options.value.lruCacheOptions.value);
    r := Ok(cache);
  }

  /** Two instances of one cache: a deletion published by one, once delivered
      to both, removes the key from the other while leaving its other keys,
      and the publisher ignores its own message. */
  method DeleteReachesPeer<T(==)>(name: string, idA: string, idB: string, k: string, other: string, v: T, w: T)
      returns (aSees: Result<Option<T>>, bSees: Result<Option<T>>, bKeeps: Result<Option<T>>)
    requires idA != idB && k != other
    ensures aSees == Ok(None) && bSees == Ok(None) && bKeeps == Ok(Some(w))
  {
    var opts := LruOptions(100, 0, false);
    var a := new Cache<T>(name, idA, opts);
    var b := new Cache<T>(name, idB, opts);
    assert a.exchangeName == b.exchangeName;
    var _ := a.Set(k, v);
    var _ := b.Set(k, v);
    var _ := b.Set(other, w);
    var _ := a.Del(k);
    var sent := a.outbox[0];
    assert sent == Envelope(DelPrefix + k, idA);
    DelRoundTrip(k);
    a.HandleMessage(Deliver(sent));
    b.HandleMessage(Deliver(sent));
    aSees := a.Get(k);
    bSees := b.Get(k);
    bKeeps := b.Get(other);
  }

  /** What `del` publishes, replayed through a queue: an instance that
      receives A's whole outbox loses every key A deleted, and A itself,
      receiving the same messages, keeps its store. */
  method PeerAfterDel<T(==)>(name: string, idA: string, idB: string, k1: string, k2: string, v: T)
      returns (bAfter: map<string, T>, aAfter: map<string, T>, aStore: map<string, T>)
    requires idA != idB
    ensures k1 !in bAfter && k2 !in bAfter
    ensures aAfter == aStore
  {
    var opts := LruOptions(100, 0, false);
    var a := new Cache<T>(name, idA, opts);
    var b := new Cache<T>(name, idB, opts);
    var _ := b.Set(k1, v);
    var _ := b.Set(k2, v);
    var _ := a.Del(k1);
    var _ := a.Del(k2);
    DelRoundTrip(k1);
    DelRoundTrip(k2);
    PeerReceivesOutbox(b.store, b.cacheId, a.cacheId, a.outbox, 0);
    PeerReceivesOutbox(b.store, b.cacheId, a.cacheId, a.outbox, 1);
    PeerReceivesOutbox(a.store, a.cacheId, a.cacheId, a.outbox, 0);
    bAfter := ReceiveAll(b.store, b.cacheId, Deliveries(a.outbox));
    aAfter := ReceiveAll(a.store, a.cacheId, Deliveries(a.outbox));
    aStore := a.store;
  }

  /** After `close`, operations fail with the closing error and nothing is
      published. */
  method ClosedCacheRefuses<T(==)>(name: string, id: string, k: string, v: T)
      returns (got: Result<Option<T>>, del: Outcome, stored: Result<bool>, published: nat)
    ensures got == Err(ClosingError(ClosingMessage))
    ensures del == Fail(ClosingError(ClosingMessage)) && stored == Err(ClosingError(ClosingMessage))
    ensures published == 0
  {
    var c := new Cache<T>(name, id, LruOptions(10, 0, false));
    c.Close();
    got := c.Get(k);
    del := c.Del(k);
    stored := c.Set(k, v);
    published := |c.outbox|;
  }
}
