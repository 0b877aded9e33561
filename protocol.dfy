/** The invalidation wire protocol of rabbit-lru-cache: how exchange and queue
    names are derived, how an invalidation is written into a message body, how
    a received message is read back, and what receiving it does to the local
    store. Everything here is a pure function of its arguments. */
module Protocol {
  import opened Results

  const ExchangePrefix := "rabbit-lru-cache-"
  const ResetMessage := "reset"
  const DelPrefix := "del:"

  /** JavaScript's `s.startsWith(p)`. */
  predicate StartsWith(s: string, p: string) {
    |p| <= |s| && s[..|p|] == p
  }

  // ---------------------------------------------------------------------------
  // Topology names

  /** The fanout exchange shared by every instance of the cache called `name`. */
  function ExchangeName(name: string): (r: string)
    ensures StartsWith(r, ExchangePrefix) && r[|ExchangePrefix|..] == name
  {
    ExchangePrefix + name
  }

  /** The exclusive queue of one instance, bound to `exchange`. */
  function QueueName(exchange: string, cacheId: string): (r: string)
    ensures |r| == |exchange| + 1 + |cacheId|
    ensures StartsWith(r, exchange) && r[|exchange|] == '-' && r[|exchange| + 1..] == cacheId
  {
    exchange + "-" + cacheId
  }

  /** Distinct cache names never share an exchange. */
  lemma ExchangeNameInjective(a: string, b: string)
    requires ExchangeName(a) == ExchangeName(b)
    ensures a == b
  {
    assert a == ExchangeName(a)[|ExchangePrefix|..];
  }

  /** Instance ids of one length (a version-1 UUID is always 36 characters)
      give distinct queue names to distinct (name, id) pairs, whatever
      characters the names contain. */
  lemma QueueNameInjective(n1: string, id1: string, n2: string, id2: string)
    requires |id1| == |id2|
    requires QueueName(ExchangeName(n1), id1) == QueueName(ExchangeName(n2), id2)
    ensures n1 == n2 && id1 == id2
  {
    var q := QueueName(ExchangeName(n1), id1);
    var e1, e2 := ExchangeName(n1), ExchangeName(n2);
    assert |e1| == |e2|;
    assert e1 == q[..|e1|] == e2;
    ExchangeNameInjective(n1, n2);
    assert id1 == q[|e1| + 1..] == id2;
  }

  /** Without the fixed id length the names are ambiguous: the separator `-`
      may also occur inside a cache name. */
  lemma QueueNameAmbiguousWithoutFixedIdLength()
    ensures QueueName(ExchangeName("a"), "b-c") == QueueName(ExchangeName("a-b"), "c")
  {
  }

  // ---------------------------------------------------------------------------
  // Message bodies

  /** What a message body asks the receiver to do. */
  datatype Command = Reset | Del(key: string) | Other

  /** The body that `del` and `reset` publish. */
  function Encode(c: Command): (r: string)
    requires !c.Other?
    ensures Decode(r) == c
  {
    match c
    case Reset => ResetMessage
    case Del(key) =>
      var body := DelPrefix + key;
      assert body[0] == 'd';
      assert body[..|DelPrefix|] == DelPrefix && body[|DelPrefix|..] == key;
      body
  }

  /** The consumer's reading of a body: the exact text `reset`, then the
      `del:` prefix with the rest of the body as the key, then anything else. */
  function Decode(content: string): (c: Command)
    ensures c == Reset <==> content == ResetMessage
    ensures c.Del? <==> content != ResetMessage && StartsWith(content, DelPrefix)
    ensures c.Del? ==> content == DelPrefix + c.key
  {
    if content == ResetMessage then Reset
    else if StartsWith(content, DelPrefix) then
      assert content == content[..|DelPrefix|] + content[|DelPrefix|..];
      Del(content[|DelPrefix|..])
    else Other
  }

  /** Every key round-trips, including the empty key and keys holding `:`,
      and a deletion is never read as a reset. */
  lemma DelRoundTrip(k: string)
    ensures Decode(DelPrefix + k) == Del(k)
    ensures DelPrefix + k != ResetMessage
  {
    assert Decode(Encode(Del(k))) == Del(k);
  }

  // ---------------------------------------------------------------------------
  // Publishing and receiving

  /** One published message: its body and its `x-cache-id` header. */
  datatype Envelope = Envelope(content: string, cacheId: string)

  /** One delivered message as the consumer sees it; `publisherId` is the
      `x-cache-id` header, `None` when the header is missing. A delivery of
      `None` (no message at all) is `Option<Delivery>.None`. */
  datatype Delivery = Delivery(content: string, publisherId: Option<string>)

  /** What a subscriber queue receives for a published message. */
  function Deliver(e: Envelope): (d: Option<Delivery>)
    ensures d.Some? && d.value.content == e.content && d.value.publisherId == Some(e.cacheId)
  {
    Some(Delivery(e.content, Some(e.cacheId)))
  }

  /** The published messages in order, as one subscriber queue delivers them. */
  function Deliveries(outbox: seq<Envelope>): (ds: seq<Option<Delivery>>)
    ensures |ds| == |outbox|
    ensures forall i :: 0 <= i < |outbox| ==> ds[i] == Deliver(outbox[i])
  {
    seq(|outbox|, i requires 0 <= i < |outbox| => Deliver(outbox[i]))
  }

  /** A delivery that the receiver `ownId` acts on: present, and not carrying
      the receiver's own id in its header. */
  predicate IsForeign(msg: Option<Delivery>, ownId: string) {
    msg.Some? && msg.value.publisherId != Some(ownId)
  }

  /** The consumer callback's effect on the store of the instance `ownId`. */
  function Receive<T>(store: map<string, T>, ownId: string, msg: Option<Delivery>): (r: map<string, T>)
    ensures !IsForeign(msg, ownId) ==> r == store
    ensures IsForeign(msg, ownId) && msg.value.content == ResetMessage ==> r == map[]
    ensures IsForeign(msg, ownId) && msg.value.content != ResetMessage && StartsWith(msg.value.content, DelPrefix) ==>
              r == store - {msg.value.content[|DelPrefix|..]}
    ensures IsForeign(msg, ownId) && msg.value.content != ResetMessage && !StartsWith(msg.value.content, DelPrefix) ==>
              r == store
  {
    if !IsForeign(msg, ownId) then store
    else match Decode(msg.value.content)
      case Reset => map[]
      case Del(key) => store - {key}
      case Other => store
  }

  /** Receiving a sequence of deliveries in order. */
  function ReceiveAll<T>(store: map<string, T>, ownId: string, msgs: seq<Option<Delivery>>): (r: map<string, T>)
    ensures r.Keys <= store.Keys
    ensures forall k :: k in r ==> r[k] == store[k]
    decreases |msgs|
  {
    if msgs == [] then store
    else ReceiveAll(Receive(store, ownId, msgs[0]), ownId, msgs[1..])
  }

  /** Receiving only one's own messages (or none at all) changes nothing. */
  lemma {:induction false} OwnMessagesIgnored<T>(store: map<string, T>, ownId: string, msgs: seq<Option<Delivery>>)
    requires forall i :: 0 <= i < |msgs| ==> !IsForeign(msgs[i], ownId)
    ensures ReceiveAll(store, ownId, msgs) == store
    decreases |msgs|
  {
    if msgs != [] {
      assert !IsForeign(msgs[0], ownId);
      OwnMessagesIgnored(store, ownId, msgs[1..]);
    }
  }

  /** Once a foreign deletion of `k` is received, `k` stays absent whatever is
      received afterwards. */
  lemma {:induction false} ForeignDelSticks<T>(store: map<string, T>, ownId: string, msgs: seq<Option<Delivery>>, i: nat, k: string)
    requires i < |msgs|
    requires IsForeign(msgs[i], ownId) && Decode(msgs[i].value.content) == Del(k)
    ensures k !in ReceiveAll(store, ownId, msgs)
    decreases |msgs|
  {
    if i == 0 {
      var after := Receive(store, ownId, msgs[0]);
      assert k !in after;
      assert ReceiveAll(store, ownId, msgs) == ReceiveAll(after, ownId, msgs[1..]);
    } else {
      ForeignDelSticks(Receive(store, ownId, msgs[0]), ownId, msgs[1..], i - 1, k);
    }
  }

  /** Once a foreign reset is received, the store stays empty whatever is
      received afterwards. */
  lemma {:induction false} ForeignResetSticks<T>(store: map<string, T>, ownId: string, msgs: seq<Option<Delivery>>, i: nat)
    requires i < |msgs|
    requires IsForeign(msgs[i], ownId) && msgs[i].value.content == ResetMessage
    ensures ReceiveAll(store, ownId, msgs) == map[]
    decreases |msgs|
  {
    if i == 0 {
      var after := Receive(store, ownId, msgs[0]);
      assert after == map[];
      var r := ReceiveAll(after, ownId, msgs[1..]);
      assert r.Keys <= after.Keys;
      assert ReceiveAll(store, ownId, msgs) == r;
    } else {
      ForeignResetSticks(Receive(store, ownId, msgs[0]), ownId, msgs[1..], i - 1);
    }
  }

  /** Two instances on one exchange: when `peerId` receives everything an
      instance `publisherId` has published, every key that instance deleted
      is gone from the peer's store, and a reset empties it; receiving its
      own messages back leaves the publisher's store as it is. */
  lemma PeerReceivesOutbox<T>(store: map<string, T>, ownId: string, publisherId: string, outbox: seq<Envelope>, i: nat)
    requires forall j :: 0 <= j < |outbox| ==> outbox[j].cacheId == publisherId
    requires i < |outbox|
    ensures ownId == publisherId ==> ReceiveAll(store, ownId, Deliveries(outbox)) == store
    ensures ownId != publisherId && Decode(outbox[i].content).Del? ==>
              Decode(outbox[i].content).key !in ReceiveAll(store, ownId, Deliveries(outbox))
    ensures ownId != publisherId && outbox[i].content == ResetMessage ==>
              ReceiveAll(store, ownId, Deliveries(outbox)) == map[]
  {
    var ds := Deliveries(outbox);
    if ownId == publisherId {
      OwnMessagesIgnored(store, ownId, ds);
    } else {
      assert IsForeign(ds[i], ownId);
      match Decode(outbox[i].content)
      case Del(k) => ForeignDelSticks(store, ownId, ds, i, k);
      case Reset => ForeignResetSticks(store, ownId, ds, i);
      case Other =>
    }
  }
}
