/** `RedisWebsocketProvider` of src/websocket-client.js, the older
    generation: the same connection state machine as the newer provider,
    but no storage at all. A collection becomes known, at clock "0", the
    first time a document of it is asked for; local updates go straight to
    the server (or to the cache) with no pending id; a server update for an
    unknown collection is dropped.

    As in the newer provider, socket events and timers are methods the
    environment calls, a socket is a number, a `Y.Doc` a handle into
    `guids`, and what goes out is recorded in order. */
module LegacyClient {
  import opened Text
  import opened LegacyProtocol
  import opened OrderedMaps
  import Clock
  import Client

  /** The two kinds of frame the provider sends. */
  datatype Outgoing =
    | SubscribeRequest(subs: seq<Subscription>)
    | UpdateRequest(collectionid: Str, docUpdates: seq<DocUpdate>)

  /** The bytes of an outgoing frame. */
  function Wire(message: Outgoing): seq<byte>
  {
    match message
    case SubscribeRequest(subs) => ClientRequestSubscriptions(subs)
    case UpdateRequest(collectionid, docUpdates) => EncodeDocumentUpdates(collectionid, docUpdates)
  }

  /** A frame handed to `send` of the socket with that number. */
  datatype Sent = Sent(socket: nat, message: Outgoing)

  // ---------------------------------------------------------------------
  // what a message does to the collections

  /** The collections after the reader's `collection.clock = clock`
      assignments, in order. */
  function WithClocks(m: OMap<Client.Loaded>, effects: seq<ClientEffect>): (r: OMap<Client.Loaded>)
    ensures r.keys == m.keys && r.entries.Keys == m.entries.Keys
    ensures forall c :: c in m.entries ==> r.entries[c].ydocs == m.entries[c].ydocs
  {
    if effects == [] then m
    else
      var before := WithClocks(m, effects[..|effects| - 1]);
      match effects[|effects| - 1]
      case SetClock(c, clock) =>
        if c in before.entries then before.(entries := before.entries[c := before.entries[c].(clock := clock)]) else before
      case _ => before
  }

  /** The provider reading a server update frame: the frame is read to its
      end; a known collection takes the update's clock and nothing else
      moves; an update for an unknown collection has no effect at all; the
      update reaches the document only when it is loaded. */
  lemma UpdateFrameEffect(m: OMap<Client.Loaded>, collectionid: Str, docid: Str, update: seq<byte>, clock: Str)
    ensures var read := ClientFrame(ServerWriteUpdate(collectionid, docid, update, clock), Client.View(m));
            read.completed
            && (collectionid in m.entries ==>
                  WithClocks(m, read.effects) == m.(entries := m.entries[collectionid := m.entries[collectionid].(clock := clock)]))
            && (collectionid !in m.entries ==> read.effects == [])
            && (ApplyUpdate(collectionid, docid, update) in read.effects
                <==> collectionid in m.entries && docid in m.entries[collectionid].ydocs)
  {
    ReadUpdateFrame(collectionid, docid, update, clock, Client.View(m));
    UpdateEffectsOnCollections(m, ServerUpdate(collectionid, docid, update, clock));
  }

  /** A frame holding one server update is read to its end, with that
      update's effects. */
  lemma ReadUpdateFrame(collectionid: Str, docid: Str, update: seq<byte>, clock: Str, view: ClientView)
    ensures ClientFrame(ServerWriteUpdate(collectionid, docid, update, clock), view)
         == ClientRead(ServerUpdateEffects(ServerUpdate(collectionid, docid, update, clock), view), true)
  {
    var frame := ServerWriteUpdate(collectionid, docid, update, clock);
    var effects := ServerUpdateEffects(ServerUpdate(collectionid, docid, update, clock), view);
    ServerUpdateRoundTrip(collectionid, docid, update, clock, [], view);
    assert frame + [] == frame;
    assert effects + [] == effects;
  }

  /** One update's effects on the collections: a known collection takes the
      update's clock and nothing else moves; an unknown one has no effect;
      the update reaches the document only when it is loaded. */
  lemma UpdateEffectsOnCollections(m: OMap<Client.Loaded>, u: ServerUpdate)
    ensures var effects := ServerUpdateEffects(u, Client.View(m));
            (u.collectionid in m.entries ==>
               WithClocks(m, effects) == m.(entries := m.entries[u.collectionid := m.entries[u.collectionid].(clock := u.clock)]))
            && (u.collectionid !in m.entries ==> effects == [])
            && (ApplyUpdate(u.collectionid, u.docid, u.update) in effects
                <==> u.collectionid in m.entries && u.docid in m.entries[u.collectionid].ydocs)
  {
    var effects := ServerUpdateEffects(u, Client.View(m));
    if u.collectionid in m.entries {
      var setClock := [SetClock(u.collectionid, u.clock)];
      assert setClock[..0] == [];
      assert WithClocks(m, setClock) == m.(entries := m.entries[u.collectionid := m.entries[u.collectionid].(clock := u.clock)]);
      if u.docid in m.entries[u.collectionid].ydocs {
        assert effects == setClock + [ApplyUpdate(u.collectionid, u.docid, u.update)];
        assert effects[..1] == setClock;
      } else {
        assert effects == setClock;
      }
    }
  }

  // ---------------------------------------------------------------------
  // what the server reads

  /** The `(collectionid, clock)` pairs `clientRequestSubscriptions` writes
      for a map of collections, in its key order. */
  function Subscriptions(m: OMap<Client.Loaded>): seq<Subscription>
    requires forall k :: k in m.keys ==> k in m.entries
  {
    seq(|m.keys|, i requires 0 <= i < |m.keys| => Subscription(m.keys[i], m.entries[m.keys[i]].clock))
  }

  /** The server reads a subscription request as one subscription per
      pair, in order, with nothing left over. */
  lemma SubscriptionFrameRead(subs: seq<Subscription>)
    ensures ServerFrame(Wire(SubscribeRequest(subs))) == ServerRead(Subscribes(subs), true)
  {
    SubscriptionsRoundTrip(subs, []);
    assert ClientRequestSubscriptions(subs) + [] == ClientRequestSubscriptions(subs);
    assert Subscribes(subs) + [] == Subscribes(subs);
  }

  /** The subscriptions of the request sent on open name every known
      collection exactly once, at the collection's clock, and nothing else. */
  lemma SubscriptionsCoverCollections(m: OMap<Client.Loaded>)
    requires OrderedMaps.Valid(m)
    ensures |Subscribes(Subscriptions(m))| == |m.entries|
    ensures forall c, clock :: Subscribe(c, clock) in Subscribes(Subscriptions(m)) <==> c in m.entries && m.entries[c].clock == clock
  {
    var effects := Subscribes(Subscriptions(m));
    assert m.entries.Keys == set k | k in m.keys;
    Client.DistinctCardinality(m.keys);
    forall c, clock
      ensures Subscribe(c, clock) in effects <==> c in m.entries && m.entries[c].clock == clock
    {
      if c in m.entries && m.entries[c].clock == clock {
        var i :| 0 <= i < |m.keys| && m.keys[i] == c;
        assert effects[i] == Subscribe(c, clock);
      }
    }
  }

  /** Together: the frame sent on open makes the server subscribe to every
      known collection exactly once, at its clock, and to nothing else. */
  lemma SubscriptionFrameCoversCollections(m: OMap<Client.Loaded>)
    requires OrderedMaps.Valid(m)
    ensures var read := ServerFrame(Wire(SubscribeRequest(Subscriptions(m))));
            read.completed && |read.effects| == |m.entries|
            && forall c, clock :: Subscribe(c, clock) in read.effects <==> c in m.entries && m.entries[c].clock == clock
  {
    SubscriptionFrameRead(Subscriptions(m));
    SubscriptionsCoverCollections(m);
  }

  /** The frames `_updateHandler` sends for one update: one per holding
      collection, in order, each with the single `(docid, update)` entry. */
  function UpdateFrames(targets: seq<Str>, docid: Str, update: seq<byte>): seq<Outgoing>
  {
    seq(|targets|, i requires 0 <= i < |targets| => UpdateRequest(targets[i], [DocUpdate(docid, update)]))
  }

  /** The server reads each of those frames to its end as the publication
      of that update, in that collection, under that document id. */
  lemma UpdateFramesRead(targets: seq<Str>, docid: Str, update: seq<byte>, i: nat)
    requires i < |targets|
    ensures ServerFrame(Wire(UpdateFrames(targets, docid, update)[i])) == ServerRead([Publish(targets[i], docid, update)], true)
  {
    var docUpdates := [DocUpdate(docid, update)];
    var frame := EncodeDocumentUpdates(targets[i], docUpdates);
    DocumentUpdatesRoundTrip(targets[i], docUpdates, []);
    assert frame + [] == frame;
    assert Publishes(targets[i], docUpdates) == [Publish(targets[i], docid, update)];
  }

  /** The document `getDoc` finds under those ids, if any. */
  function Lookup(m: OMap<Client.Loaded>, collectionid: Str, docid: Str): Client.Option<nat>
  {
    if collectionid in m.entries && docid in m.entries[collectionid].ydocs
    then Client.Some(m.entries[collectionid].ydocs[docid]) else Client.None
  }

  // ---------------------------------------------------------------------
  // the provider's invariants

  /** At most one socket, either connecting or connected, and always the
      newest; nothing waits in the cache while connected. */
  ghost predicate LinkOk(ws: Client.Option<nat>, connected: bool, connecting: bool, sockets: nat, cache: seq<Outgoing>)
  {
    !(connected && connecting)
    && (ws.None? <==> !connected && !connecting)
    && (ws.Some? ==> ws.value + 1 == sockets)
    && (connected ==> cache == [])
  }

  /** The collection map is well formed and every document handle is named
      after its id. */
  ghost predicate DocsOk(collections: OMap<Client.Loaded>, guids: seq<Str>)
  {
    OrderedMaps.Valid(collections) && Client.Named(guids, Client.DocsOf(collections))
  }

  /** Adding a collection with no documents keeps the invariant. */
  lemma AddCollectionKeepsDocsOk(collections: OMap<Client.Loaded>, guids: seq<Str>, collectionid: Str)
    requires DocsOk(collections, guids)
    ensures DocsOk(SetIfUndefined(collections, collectionid, Client.Loaded(map[], Clock.ZERO)), guids)
  {
    var r := SetIfUndefined(collections, collectionid, Client.Loaded(map[], Clock.ZERO));
    assert Client.DocsOf(r) == Client.DocsOf(collections)[collectionid := r.entries[collectionid].ydocs];
  }

  /** Opening a document in a known collection keeps the invariant. */
  lemma OpenKeepsDocsOk(collections: OMap<Client.Loaded>, guids: seq<Str>, collectionid: Str, docid: Str)
    requires DocsOk(collections, guids) && collectionid in collections.entries
    ensures var c := collections.entries[collectionid];
            DocsOk(Set(collections, collectionid, c.(ydocs := c.ydocs[docid := |guids|])), guids + [docid])
  {
    var c := collections.entries[collectionid];
    var cols := Set(collections, collectionid, c.(ydocs := c.ydocs[docid := |guids|]));
    var g := guids + [docid];
    var docs := Client.DocsOf(cols);
    assert docs == Client.DocsOf(collections)[collectionid := c.ydocs[docid := |guids|]];
    forall a, d | a in docs && d in docs[a]
      ensures docs[a][d] < |g| && g[docs[a][d]] == d
    {
      if a != collectionid || d != docid {
        assert docs[a][d] == Client.DocsOf(collections)[a][d];
      }
    }
  }

  class RedisWebsocketProvider {
    var collections: OMap<Client.Loaded>
    var ws: Client.Option<nat>
    var wsconnected: bool
    var wsconnecting: bool
    var wsLastMessageReceived: int
    var wsUnsuccessfulReconnects: nat
    var shouldConnect: bool
    /** `_messageCache`: frames waiting for a connection, oldest first. */
    var messageCache: seq<Outgoing>
    /** Sockets created so far; the next one gets this number. */
    var sockets: nat
    var sent: seq<Sent>
    /** `close()` calls, by socket. */
    var closes: seq<nat>
    var events: seq<Client.Status>
    /** What `clientReadMessage` did to the documents. */
    var received: seq<ClientEffect>
    /** The id of each document created, by handle. */
    var guids: seq<Str>

    ghost predicate Valid()
      reads this
    {
      LinkOk(ws, wsconnected, wsconnecting, sockets, messageCache)
      && (wsconnected ==> wsUnsuccessfulReconnects == 0)
      && DocsOk(collections, guids)
    }

    /** `new RedisWebsocketProvider(url)`: no collections, then `connect()`. */
    constructor ()
      ensures Valid()
      ensures collections == Empty()
      ensures ws == Client.Some(0) && wsconnecting && !wsconnected && sockets == 1 && shouldConnect
      ensures wsLastMessageReceived == 0 && wsUnsuccessfulReconnects == 0
      ensures events == [Client.Connecting]
      ensures messageCache == [] && sent == [] && closes == [] && received == [] && guids == []
    {
      collections := Empty();
      ws := Client.None;
      wsconnected := false;
      wsconnecting := false;
      wsLastMessageReceived := 0;
      wsUnsuccessfulReconnects := 0;
      shouldConnect := true;
      messageCache := [];
      sockets := 0;
      sent := [];
      closes := [];
      events := [];
      received := [];
      guids := [];
      new;
      Connect();
    }

    /** `setupWS(provider)`: open a new socket only when the provider should
        connect and has none. */
    method SetupWS()
      requires Valid()
      modifies this`ws, this`sockets, this`wsconnecting, this`wsconnected, this`events
      ensures Valid()
      ensures old(shouldConnect && ws.None?) ==>
                ws == Client.Some(old(sockets)) && sockets == old(sockets) + 1 && wsconnecting && !wsconnected
                && events == old(events) + [Client.Connecting]
      ensures !old(shouldConnect && ws.None?) ==> unchanged(this`ws, this`sockets, this`wsconnecting, this`wsconnected, this`events)
    {
      if shouldConnect && ws.None? {
        ws := Client.Some(sockets);
        sockets := sockets + 1;
        wsconnecting := true;
        wsconnected := false;
        events := events + [Client.Connecting];
      }
    }

    /** The socket opened: report connected, subscribe to every known
        collection at its clock, then flush the cache oldest first. */
    method OnOpen(socket: nat, now: int)
      requires Valid() && ws == Client.Some(socket) && wsconnecting
      modifies this`wsLastMessageReceived, this`wsconnecting, this`wsconnected, this`wsUnsuccessfulReconnects, this`events, this`sent, this`messageCache
      ensures Valid()
      ensures ws == Client.Some(socket) && wsconnected && !wsconnecting
      ensures wsLastMessageReceived == now && wsUnsuccessfulReconnects == 0
      ensures events == old(events) + [Client.Connected]
      ensures sent == old(sent) + [Sent(socket, SubscribeRequest(Subscriptions(collections)))]
                      + SentOn(socket, old(messageCache))
      ensures messageCache == []
    {
      FlushOnOpen(socket);
      MarkConnected(now);
    }

    /** The writes of `onopen`: the subscription request, then the cache,
        which is left empty. */
    method FlushOnOpen(socket: nat)
      requires Valid() && ws == Client.Some(socket) && wsconnecting
      modifies this`sent, this`messageCache
      ensures Valid()
      ensures sent == old(sent) + [Sent(socket, SubscribeRequest(Subscriptions(collections)))]
                      + SentOn(socket, old(messageCache))
      ensures messageCache == []
    {
      var frames := OpenFrames(socket, collections, messageCache);
      sent := sent + frames;
      messageCache := [];
    }

    /** The bookkeeping of `onopen`. */
    method MarkConnected(now: int)
      requires Valid() && ws.Some? && wsconnecting && messageCache == []
      modifies this`wsLastMessageReceived, this`wsconnecting, this`wsconnected, this`wsUnsuccessfulReconnects, this`events
      ensures Valid()
      ensures wsconnected && !wsconnecting
      ensures wsLastMessageReceived == now && wsUnsuccessfulReconnects == 0
      ensures events == old(events) + [Client.Connected]
    {
      wsLastMessageReceived := now;
      wsconnecting := false;
      wsconnected := true;
      wsUnsuccessfulReconnects := 0;
      events := events + [Client.Connected];
    }

    /** The socket closed: forget it; a socket that had opened reports
        disconnected, one that never opened counts a failure. Returns the
        delay after which `setupWS` runs again. */
    method OnClose(socket: nat, log10: real -> real) returns (delay: real)
      requires Valid() && ws == Client.Some(socket)
      modifies this`ws, this`wsconnecting, this`wsconnected, this`events, this`wsUnsuccessfulReconnects
      ensures Valid()
      ensures ws == Client.None && !wsconnected && !wsconnecting
      ensures old(wsconnected) ==> events == old(events) + [Client.Disconnected] && wsUnsuccessfulReconnects == old(wsUnsuccessfulReconnects)
      ensures !old(wsconnected) ==> events == old(events) && wsUnsuccessfulReconnects == old(wsUnsuccessfulReconnects) + 1
      ensures delay == Client.ReconnectDelay(wsUnsuccessfulReconnects, log10)
      ensures old(wsconnected) && log10(1.0) == 0.0 ==> delay == 0.0
      ensures !old(wsconnected) ==> delay == Client.ReconnectDelay(old(wsUnsuccessfulReconnects) + 1, log10)
    {
      ws := Client.None;
      wsconnecting := false;
      if wsconnected {
        wsconnected := false;
        events := events + [Client.Disconnected];
      } else {
        wsUnsuccessfulReconnects := wsUnsuccessfulReconnects + 1;
      }
      delay := Client.ReconnectDelay(wsUnsuccessfulReconnects, log10);
    }

    /** A frame arrived: note the time and read it against the known
        collections. The updates it applies carry no origin. */
    method OnMessage(socket: nat, frame: seq<byte>, now: int)
      requires Valid() && ws == Client.Some(socket)
      modifies this`wsLastMessageReceived, this`received, this`collections
      ensures Valid()
      ensures var read := ClientFrame(frame, Client.View(old(collections)));
              received == old(received) + read.effects && collections == WithClocks(old(collections), read.effects)
      ensures wsLastMessageReceived == now
    {
      wsLastMessageReceived := now;
      var effects, _ := ClientReadMessage(frame, Client.View(collections));
      assert Client.DocsOf(WithClocks(collections, effects)) == Client.DocsOf(collections);
      received := received + effects;
      collections := WithClocks(collections, effects);
    }

    /** `_send(message)`: straight out when connected, else cached. */
    method Send(frame: Outgoing)
      requires Valid()
      modifies this`sent, this`messageCache
      ensures Valid()
      ensures wsconnected ==> ws.Some? && sent == old(sent) + [Sent(ws.value, frame)] && messageCache == old(messageCache)
      ensures !wsconnected ==> sent == old(sent) && messageCache == old(messageCache) + [frame]
    {
      if wsconnected {
        sent := sent + [Sent(ws.value, frame)];
      } else {
        messageCache := messageCache + [frame];
      }
    }

    /** `_send` of each frame in turn. */
    method SendEach(frames: seq<Outgoing>)
      requires Valid()
      modifies this`sent, this`messageCache
      ensures Valid()
      ensures wsconnected ==> ws.Some? && sent == old(sent) + SentOn(ws.value, frames) && messageCache == old(messageCache)
      ensures !wsconnected ==> sent == old(sent) && messageCache == old(messageCache) + frames
    {
      var i := 0;
      while i < |frames|
        invariant 0 <= i <= |frames| && Valid()
        invariant wsconnected ==> ws.Some? && sent == old(sent) + SentOn(ws.value, frames[..i]) && messageCache == old(messageCache)
        invariant !wsconnected ==> sent == old(sent) && messageCache == old(messageCache) + frames[..i]
      {
        assert frames[..i + 1][..i] == frames[..i];
        Send(frames[i]);
        i := i + 1;
      }
      assert frames[..i] == frames;
    }

    /** One tick of the watchdog interval: a connection silent for longer
        than `messageReconnectTimeout` is closed. */
    method WatchdogTick(now: int)
      requires Valid()
      modifies this`closes
      ensures Valid()
      ensures closes == old(closes) + if old(wsconnected) && Client.MESSAGE_RECONNECT_TIMEOUT < now - old(wsLastMessageReceived)
                                      then [old(ws).value] else []
    {
      if wsconnected && Client.MESSAGE_RECONNECT_TIMEOUT < now - wsLastMessageReceived {
        closes := closes + [ws.value];
      }
    }

    /** `getDoc(collectionid, docid)`: the collection is created at clock
        "0" if missing; the document already opened under that id is handed
        back, else a new one is opened and, only if connected, subscribed to
        from clock "0", whatever the collection's clock. */
    method GetDoc(collectionid: Str, docid: Str) returns (doc: nat)
      requires Valid()
      modifies this`collections, this`guids, this`sent
      ensures Valid()
      ensures doc < |guids| && guids[doc] == docid
      ensures Lookup(collections, collectionid, docid) == Client.Some(doc)
      ensures old(collectionid in collections.entries) ==> collections.entries[collectionid].clock == old(collections.entries[collectionid].clock)
      ensures !old(collectionid in collections.entries) ==> collections.entries[collectionid].clock == Clock.ZERO
      ensures var found := Lookup(old(collections), collectionid, docid);
              (found.Some? ==> doc == found.value && collections == old(collections) && guids == old(guids) && sent == old(sent))
              && (found.None? ==>
                    var c := SetIfUndefined(old(collections), collectionid, Client.Loaded(map[], Clock.ZERO)).entries[collectionid];
                    doc == |old(guids)| && guids == old(guids) + [docid]
                    && collections == Set(SetIfUndefined(old(collections), collectionid, Client.Loaded(map[], Clock.ZERO)),
                                          collectionid, c.(ydocs := c.ydocs[docid := doc]))
                    && sent == old(sent) + if wsconnected then [Sent(ws.value, SubscribeRequest([Subscription(collectionid, Clock.ZERO)]))] else [])
    {
      AddCollectionKeepsDocsOk(collections, guids, collectionid);
      collections := SetIfUndefined(collections, collectionid, Client.Loaded(map[], Clock.ZERO));
      doc := OpenDoc(collectionid, docid);
    }

    /** The `setIfUndefined(collection.ydocs, docid, …)` half of `getDoc`. */
    method OpenDoc(collectionid: Str, docid: Str) returns (doc: nat)
      requires Valid() && collectionid in collections.entries
      modifies this`collections, this`guids, this`sent
      ensures Valid()
      ensures doc < |guids| && guids[doc] == docid
      ensures Lookup(collections, collectionid, docid) == Client.Some(doc)
      ensures collectionid in collections.entries && collections.entries[collectionid].clock == old(collections.entries[collectionid].clock)
      ensures var found := Lookup(old(collections), collectionid, docid);
              (found.Some? ==> doc == found.value && collections == old(collections) && guids == old(guids) && sent == old(sent))
              && (found.None? ==>
                    var c := old(collections).entries[collectionid];
                    doc == |old(guids)| && guids == old(guids) + [docid]
                    && collections == Set(old(collections), collectionid, c.(ydocs := c.ydocs[docid := doc]))
                    && sent == old(sent) + if wsconnected then [Sent(ws.value, SubscribeRequest([Subscription(collectionid, Clock.ZERO)]))] else [])
    {
      var c := collections.entries[collectionid];
      if docid in c.ydocs {
        doc := c.ydocs[docid];
        assert Client.DocsOf(collections)[collectionid] == c.ydocs;
      } else {
        OpenKeepsDocsOk(collections, guids, collectionid, docid);
        doc := |guids|;
        guids := guids + [docid];
        collections := Set(collections, collectionid, c.(ydocs := c.ydocs[docid := doc]));
        if wsconnected {
          sent := sent + [Sent(ws.value, SubscribeRequest([Subscription(collectionid, Clock.ZERO)]))];
        }
      }
    }

    /** `_updateHandler(update, origin, ydoc)`: an update that did not come
        from the provider itself goes out once for every collection, in key
        order, that holds this very document. Returns those collections. */
    method UpdateHandler(update: seq<byte>, fromProvider: bool, doc: nat) returns (targets: seq<Str>)
      requires Valid() && doc < |guids|
      modifies this`sent, this`messageCache
      ensures Valid()
      ensures fromProvider ==> targets == []
      ensures !fromProvider ==> targets == Client.Holders(collections.keys, Client.DocsOf(collections), guids[doc], doc)
      ensures var frames := UpdateFrames(targets, guids[doc], update);
              (wsconnected ==> ws.Some? && sent == old(sent) + SentOn(ws.value, frames) && messageCache == old(messageCache))
              && (!wsconnected ==> sent == old(sent) && messageCache == old(messageCache) + frames)
    {
      targets := [];
      if !fromProvider {
        targets := Client.FindHolders(collections.keys, Client.DocsOf(collections), guids[doc], doc);
      }
      SendEach(UpdateFrames(targets, guids[doc], update));
    }

    /** `disconnect()`: stop reconnecting and close the socket if any. */
    method Disconnect()
      requires Valid()
      modifies this`shouldConnect, this`closes
      ensures Valid()
      ensures !shouldConnect
      ensures closes == old(closes) + if old(ws).Some? then [old(ws).value] else []
    {
      shouldConnect := false;
      if ws.Some? {
        closes := closes + [ws.value];
      }
    }

    /** `connect()`: reconnect from now on, and open a socket at once if
        there is none. */
    method Connect()
      requires Valid()
      modifies this`shouldConnect, this`ws, this`sockets, this`wsconnecting, this`wsconnected, this`events
      ensures Valid()
      ensures shouldConnect
      ensures old(ws).None? ==>
                ws == Client.Some(old(sockets)) && sockets == old(sockets) + 1 && wsconnecting && !wsconnected
                && events == old(events) + [Client.Connecting]
      ensures old(ws).Some? ==> ws == old(ws) && wsconnected == old(wsconnected) && wsconnecting == old(wsconnecting)
                                && sockets == old(sockets) && events == old(events)
    {
      shouldConnect := true;
      if !wsconnected && ws.None? {
        SetupWS();
      }
    }
  }

  /** What `onopen` writes to a fresh socket: the subscription request for
      every collection, then the cached messages in order. */
  method OpenFrames(socket: nat, collections: OMap<Client.Loaded>, cache: seq<Outgoing>) returns (out: seq<Sent>)
    requires forall k :: k in collections.keys ==> k in collections.entries
    ensures out == [Sent(socket, SubscribeRequest(Subscriptions(collections)))] + SentOn(socket, cache)
  {
    var flushed := SendAll(socket, cache);
    out := [Sent(socket, SubscribeRequest(Subscriptions(collections)))] + flushed;
  }

  /** The frames of a cache flushed onto one socket, in order. */
  function SentOn(socket: nat, frames: seq<Outgoing>): seq<Sent>
  {
    if frames == [] then [] else SentOn(socket, frames[..|frames| - 1]) + [Sent(socket, frames[|frames| - 1])]
  }

  /** `_messageCache.forEach(message => websocket.send(message))`: every
      cached frame goes out on the socket, oldest first, each once. */
  method SendAll(socket: nat, cache: seq<Outgoing>) returns (out: seq<Sent>)
    ensures out == SentOn(socket, cache)
    ensures |out| == |cache| && forall i :: 0 <= i < |cache| ==> out[i] == Sent(socket, cache[i])
  {
    out := [];
    var i := 0;
    while i < |cache|
      invariant 0 <= i <= |cache|
      invariant out == SentOn(socket, cache[..i])
      invariant |out| == i && forall j :: 0 <= j < i ==> out[j] == Sent(socket, cache[j])
    {
      assert cache[..i + 1][..i] == cache[..i];
      out := out + [Sent(socket, cache[i])];
      i := i + 1;
    }
    assert cache[..i] == cache;
  }
}
