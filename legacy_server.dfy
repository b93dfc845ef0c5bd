/** The connection layer of bin/websocket-server.js, the server of the first
    protocol: one `ClientConn` per socket holding the collections it
    subscribed to, and the module-level `clients` set, which only grows.
    There is no liveness flag and no ping sweep.

    As in the newer server, the shared `redisConn` is seen through its
    calls, recorded in order, and a socket through the frames handed to its
    `send`; socket events are methods the environment calls. */
module LegacyWebsocketServer {
  import opened Text
  import L = LegacyProtocol
  import W = WebsocketServer

  // ---------------------------------------------------------------------
  // what a message does to its connection

  /** The subscriptions after the reader's `clientConn.subscribe` calls. */
  function SubsAfter(subs: seq<Str>, effects: seq<L.ServerEffect>): seq<Str>
  {
    if effects == [] then subs
    else
      var before := SubsAfter(subs, effects[..|effects| - 1]);
      match effects[|effects| - 1]
      case Subscribe(collectionid, _) => W.AddSub(before, collectionid)
      case Publish(_, _, _) => before
  }

  /** The calls on `redisConn` the reader makes for this connection: a
      publish per update, a listen per subscription. */
  function CallsOf(client: nat, effects: seq<L.ServerEffect>): seq<W.RedisCall>
  {
    if effects == [] then []
    else
      CallsOf(client, effects[..|effects| - 1])
      + match effects[|effects| - 1]
        case Publish(collectionid, docid, update) => [W.PublishCall(collectionid, docid, update)]
        case Subscribe(collectionid, clock) => [W.ListenCall(client, collectionid, clock)]
  }

  /** The publish calls for the entries of one update message, in order. */
  function PublishesOf(collectionid: Str, docUpdates: seq<L.DocUpdate>): seq<W.RedisCall>
  {
    if docUpdates == [] then []
    else PublishesOf(collectionid, docUpdates[..|docUpdates| - 1])
         + [W.PublishCall(collectionid, docUpdates[|docUpdates| - 1].docid, docUpdates[|docUpdates| - 1].update)]
  }

  /** The listen calls for a list of requested subscriptions, in order. */
  function ListensOf(client: nat, requests: seq<L.Subscription>): seq<W.RedisCall>
  {
    if requests == [] then []
    else ListensOf(client, requests[..|requests| - 1])
         + [W.ListenCall(client, requests[|requests| - 1].collectionid, requests[|requests| - 1].clock)]
  }

  /** The requested collections, in order. */
  function CollectionIds(requests: seq<L.Subscription>): seq<Str>
  {
    if requests == [] then [] else CollectionIds(requests[..|requests| - 1]) + [requests[|requests| - 1].collectionid]
  }

  lemma {:induction false} PublishesCalls(client: nat, subs: seq<Str>, collectionid: Str, docUpdates: seq<L.DocUpdate>)
    ensures CallsOf(client, L.Publishes(collectionid, docUpdates)) == PublishesOf(collectionid, docUpdates)
    ensures SubsAfter(subs, L.Publishes(collectionid, docUpdates)) == subs
  {
    if docUpdates != [] {
      var init := docUpdates[..|docUpdates| - 1];
      PublishesCalls(client, subs, collectionid, init);
      assert L.Publishes(collectionid, docUpdates)[..|docUpdates| - 1] == L.Publishes(collectionid, init);
    }
  }

  lemma {:induction false} SubscribesCalls(client: nat, subs: seq<Str>, requests: seq<L.Subscription>)
    ensures CallsOf(client, L.Subscribes(requests)) == ListensOf(client, requests)
    ensures Distinct(subs) ==> Distinct(SubsAfter(subs, L.Subscribes(requests)))
    ensures forall c :: c in SubsAfter(subs, L.Subscribes(requests)) <==> c in subs || c in CollectionIds(requests)
  {
    if requests != [] {
      var init := requests[..|requests| - 1];
      SubscribesCalls(client, subs, init);
      assert L.Subscribes(requests)[..|requests| - 1] == L.Subscribes(init);
    }
  }

  /** A frame holding one client update message publishes each of its
      entries to the relay, in order, and leaves the subscriptions alone. */
  lemma UpdateFrameEffect(client: nat, subs: seq<Str>, collectionid: Str, docUpdates: seq<L.DocUpdate>)
    ensures var effects := L.ServerFrame(L.EncodeDocumentUpdates(collectionid, docUpdates)).effects;
            CallsOf(client, effects) == PublishesOf(collectionid, docUpdates)
            && SubsAfter(subs, effects) == subs
  {
    var frame := L.EncodeDocumentUpdates(collectionid, docUpdates);
    L.DocumentUpdatesRoundTrip(collectionid, docUpdates, []);
    assert frame + [] == frame;
    var effects := L.Publishes(collectionid, docUpdates);
    assert effects + [] == effects;
    PublishesCalls(client, subs, collectionid, docUpdates);
  }

  /** A frame holding a subscription request subscribes the connection to
      every requested collection and asks the relay to listen at each
      requested clock, in order. */
  lemma SubscriptionFrameEffect(client: nat, subs: seq<Str>, requests: seq<L.Subscription>)
    ensures var effects := L.ServerFrame(L.ClientRequestSubscriptions(requests)).effects;
            CallsOf(client, effects) == ListensOf(client, requests)
            && forall c :: c in SubsAfter(subs, effects) <==> c in subs || c in CollectionIds(requests)
  {
    var frame := L.ClientRequestSubscriptions(requests);
    L.SubscriptionsRoundTrip(requests, []);
    assert frame + [] == frame;
    var effects := L.Subscribes(requests);
    assert effects + [] == effects;
    SubscribesCalls(client, subs, requests);
  }

  // ---------------------------------------------------------------------
  // the objects

  class ClientConn {
    /** The connection's identity towards the relay. */
    const id: nat
    /** `subs`: the subscribed collection ids, in insertion order. */
    var subs: seq<Str>
    /** The frames handed to `ws.send`, in order. */
    var sent: seq<seq<byte>>

    /** `new ClientConn(ws)`: no subscriptions. */
    constructor (id: nat)
      ensures this.id == id && subs == [] && sent == []
    {
      this.id := id;
      subs := [];
      sent := [];
    }

    /** `subscribe(collectionid, clock)`: remember the collection and ask the
        relay to listen from that clock for this connection. */
    method Subscribe(server: Server, collectionid: Str, clock: Str)
      modifies this`subs, server`redisCalls
      ensures subs == W.AddSub(old(subs), collectionid)
      ensures server.redisCalls == old(server.redisCalls) + [W.ListenCall(id, collectionid, clock)]
    {
      subs := W.AddSub(subs, collectionid);
      server.Listen(id, collectionid, clock);
    }

    /** `publishUpdate(collectionid, docid, update, clock)`: exactly one
        update frame of the first protocol, sent straight on the socket. */
    method PublishUpdate(collectionid: Str, docid: Str, update: seq<byte>, clock: Str)
      modifies this`sent
      ensures sent == old(sent) + [L.ServerWriteUpdate(collectionid, docid, update, clock)]
    {
      sent := sent + [L.ServerWriteUpdate(collectionid, docid, update, clock)];
    }

    /** `destroy()`: stop listening to every subscribed collection, in
        order, and forget them. The connection stays in `clients`. */
    method Destroy(server: Server)
      modifies this`subs, server`redisCalls
      ensures subs == []
      ensures server.redisCalls == old(server.redisCalls) + W.Unlistens(id, old(subs))
    {
      var i := 0;
      while i < |subs|
        invariant 0 <= i <= |subs|
        invariant server.redisCalls == old(server.redisCalls) + W.Unlistens(id, subs[..i])
        modifies server`redisCalls
      {
        assert subs[..i + 1][..i] == subs[..i];
        server.Unlisten(id, subs[i]);
        i := i + 1;
      }
      assert subs[..i] == subs;
      subs := [];
    }
  }

  /** The module-level state of the server: every connection ever accepted
      and the calls made on the shared `redisConn`. */
  class Server {
    /** `clients`: the accepted connections, in insertion order. */
    var clients: seq<ClientConn>
    var redisCalls: seq<W.RedisCall>
    /** Connections accepted so far; the next one gets this id. */
    var nextId: nat

    /** Each connection once, one per id handed out. */
    ghost predicate Valid()
      reads this
    {
      Distinct(clients) && |clients| == nextId
      && forall k :: 0 <= k < |clients| ==> clients[k].id == k
    }

    constructor ()
      ensures Valid() && clients == [] && redisCalls == [] && nextId == 0
    {
      clients := [];
      redisCalls := [];
      nextId := 0;
    }

    method Listen(client: nat, collectionid: Str, clock: Str)
      modifies this`redisCalls
      ensures redisCalls == old(redisCalls) + [W.ListenCall(client, collectionid, clock)]
    {
      redisCalls := redisCalls + [W.ListenCall(client, collectionid, clock)];
    }

    method Unlisten(client: nat, collectionid: Str)
      modifies this`redisCalls
      ensures redisCalls == old(redisCalls) + [W.UnlistenCall(client, collectionid)]
    {
      redisCalls := redisCalls + [W.UnlistenCall(client, collectionid)];
    }

    method Publish(collectionid: Str, docid: Str, update: seq<byte>)
      modifies this`redisCalls
      ensures redisCalls == old(redisCalls) + [W.PublishCall(collectionid, docid, update)]
    {
      redisCalls := redisCalls + [W.PublishCall(collectionid, docid, update)];
    }

    /** `wss.on('connection')`: a new connection without subscriptions,
        added to `clients`. */
    method OnConnection() returns (c: ClientConn)
      requires Valid()
      modifies this`clients, this`nextId
      ensures Valid() && fresh(c)
      ensures c.id == old(nextId) && c.subs == [] && c.sent == []
      ensures clients == old(clients) + [c] && nextId == old(nextId) + 1
    {
      c := new ClientConn(nextId);
      clients := clients + [c];
      nextId := nextId + 1;
    }

    /** A frame arrived on `c`'s socket: `serverReadMessage` publishes each
        update and subscribes `c` to each requested collection, in the
        reader's order. Nothing is sent back and `clients` is untouched. */
    method OnMessage(c: ClientConn, message: seq<byte>)
      modifies this`redisCalls, c`subs
      ensures var effects := L.ServerFrame(message).effects;
              c.subs == SubsAfter(old(c.subs), effects)
              && redisCalls == old(redisCalls) + CallsOf(c.id, effects)
    {
      var effects, _ := L.ServerReadMessage(message);
      var i := 0;
      while i < |effects|
        invariant Handled(c, effects, i, old(c.subs), old(redisCalls))
      {
        HandleEffect(c, effects, i, old(c.subs), old(redisCalls));
        i := i + 1;
      }
      assert effects[..i] == effects;
    }

    /** `c` has carried out the first `i` effects of a message, starting
        from `subs0` and `calls0`. */
    ghost predicate Handled(c: ClientConn, effects: seq<L.ServerEffect>, i: nat, subs0: seq<Str>, calls0: seq<W.RedisCall>)
      reads this, c
    {
      i <= |effects|
      && c.subs == SubsAfter(subs0, effects[..i])
      && redisCalls == calls0 + CallsOf(c.id, effects[..i])
    }

    /** Carry out effect `i` of a message on `c`. */
    method HandleEffect(c: ClientConn, effects: seq<L.ServerEffect>, i: nat, ghost subs0: seq<Str>, ghost calls0: seq<W.RedisCall>)
      requires i < |effects| && Handled(c, effects, i, subs0, calls0)
      modifies this`redisCalls, c`subs
      ensures Handled(c, effects, i + 1, subs0, calls0)
    {
      assert effects[..i + 1][..i] == effects[..i];
      match effects[i] {
        case Publish(collectionid, docid, update) =>
          Publish(collectionid, docid, update);
        case Subscribe(collectionid, clock) =>
          c.Subscribe(this, collectionid, clock);
      }
    }

    /** `ws.on('close')`: destroy the connection, once; it stays in
        `clients`. */
    method OnClose(c: ClientConn)
      modifies c`subs, this`redisCalls
      ensures c.subs == []
      ensures redisCalls == old(redisCalls) + W.Unlistens(c.id, old(c.subs))
    {
      c.Destroy(this);
    }
  }

  /** Closing a connection after a subscription request stops listening to
      exactly the collections it held and the ones requested, each once. */
  lemma CloseUnlistensSubscribed(client: nat, subs: seq<Str>, requests: seq<L.Subscription>, x: Str)
    requires Distinct(subs)
    ensures var after := SubsAfter(subs, L.Subscribes(requests));
            (W.UnlistenCall(client, x) in W.Unlistens(client, after) <==> x in subs || x in CollectionIds(requests))
            && |W.Unlistens(client, after)| == |after| && Distinct(W.Unlistens(client, after))
  {
    var after := SubsAfter(subs, L.Subscribes(requests));
    SubscribesCalls(client, subs, requests);
    W.UnlistensExactly(client, after);
    var calls := W.Unlistens(client, after);
    if W.UnlistenCall(client, x) in calls {
      var k :| 0 <= k < |calls| && calls[k] == W.UnlistenCall(client, x);
      assert after[k] == x;
    }
    if x in after {
      var k :| 0 <= k < |after| && after[k] == x;
      assert calls[k] == W.UnlistenCall(client, x);
    }
  }
}
