/** `RedisWebsocketProvider` of client/y-redis-client.js: the connection
    state machine around one WebSocket at a time, the FIFO of frames waiting
    for a connection, and the collections the provider subscribes to, each
    either known (with a clock) or still being loaded from storage.

    The socket's events (open, close, message), the reconnect and watchdog
    timers, and the answers of the storage are methods the environment
    calls; a socket is a number, a `Y.Doc` a handle into `guids`, and what
    goes out (frames, `close()` calls, status events, storage calls) is
    recorded in order. */
module Client {
  import opened Text
  import opened Protocol
  import opened OrderedMaps

  const RECONNECT_TIMEOUT_BASE: real := 1200.0
  const MAX_RECONNECT_TIMEOUT: real := 2500.0
  const MESSAGE_RECONNECT_TIMEOUT: int := 30000

  datatype Option<T> = None | Some(value: T)

  /** The `status` events the provider emits. */
  datatype Status = Connecting | Connected | Disconnected

  /** `{ ydocs, clock }`: a known collection, its loaded documents by id. */
  datatype Loaded = Loaded(ydocs: map<Str, nat>, clock: Str)

  /** The two kinds of frame the provider sends: a subscription request
      (`clientRequestSubscriptions`) and local updates under their pending
      ids (`encodeDocumentUpdates`). */
  datatype Outgoing =
    | SubscribeRequest(subs: seq<Subscription>)
    | UpdateRequest(collectionid: Str, docUpdates: seq<DocUpdate>)

  /** The bytes of an outgoing frame. */
  function Wire(message: Outgoing): seq<byte>
  {
    match message
    case SubscribeRequest(subs) => ClientRequestSubscriptions(subs)
    case UpdateRequest(collectionid, docUpdates) => EncodeDocumentUpdates(collectionid, docUpdates)
  }

  /** A frame handed to `send` of the socket with that number. */
  datatype Sent = Sent(socket: nat, message: Outgoing)

  /** A call on the provider's storage. */
  datatype StorageCall =
    | GetCollections
    | LoadDocument(collectionid: Str, docid: Str)   // getDocument(…, '0') and getPendingDocumentUpdates
    | StorePendingUpdate(collectionid: Str, docid: Str, update: seq<byte>)

  // ---------------------------------------------------------------------
  // reconnecting

  /** `min(log10(failures + 1) * reconnectTimeoutBase, maxReconnectTimeout)`,
      with `Math.log10` a parameter. */
  function ReconnectDelay(failures: nat, log10: real -> real): (delay: real)
    ensures delay <= MAX_RECONNECT_TIMEOUT
    ensures log10((failures + 1) as real) * RECONNECT_TIMEOUT_BASE <= MAX_RECONNECT_TIMEOUT ==>
              delay == log10((failures + 1) as real) * RECONNECT_TIMEOUT_BASE
  {
    var d := log10((failures + 1) as real) * RECONNECT_TIMEOUT_BASE;
    if d < MAX_RECONNECT_TIMEOUT then d else MAX_RECONNECT_TIMEOUT
  }

  /** With no failure counted the retry is immediate (`onopen` resets the
      count, so this is the retry after a connected socket closes), and the
      delay never shrinks as failures pile up, for a `log10` that never
      decreases. */
  lemma ReconnectDelayGrows(log10: real -> real, n: nat, m: nat)
    requires log10(1.0) == 0.0
    requires forall x: real, y: real :: 1.0 <= x <= y ==> log10(x) <= log10(y)
    requires n <= m
    ensures ReconnectDelay(0, log10) == 0.0
    ensures ReconnectDelay(n, log10) <= ReconnectDelay(m, log10)
  {
  }

  // ---------------------------------------------------------------------
  // what a message does to the collections

  /** What `clientReadMessage` consults: each known collection with the ids
      of its loaded documents. */
  function View(m: OMap<Loaded>): ClientView
  {
    map c | c in m.entries :: m.entries[c].ydocs.Keys
  }

  /** The collections after the reader's `collection.clock = clock`
      assignments, in order. */
  function WithClocks(m: OMap<Loaded>, effects: seq<ClientEffect>): (r: OMap<Loaded>)
    ensures r.keys == m.keys && r.entries.Keys == m.entries.Keys
    ensures forall c :: c in m.entries ==> r.entries[c].ydocs == m.entries[c].ydocs
  {
    if effects == [] then m
    else
      var before := WithClocks(m, effects[..|effects| - 1]);
      match effects[|effects| - 1]
      case SetClock(c, clock) =>
        if c in before.entries then before.(entries := before.entries[c := before.entries[c].(clock := clock)]) else before
      case _ => before
  }

  /** A frame holding one server update is read to its end, with that
      update's effects. */
  lemma ReadUpdateFrame(collectionid: Str, docid: Str, update: seq<byte>, clock: Str, view: ClientView)
    ensures ClientFrame(ServerWriteUpdate(collectionid, docid, update, clock), view)
         == ClientRead(ServerUpdateEffects(ServerUpdate(collectionid, docid, update, clock), view), true)
  {
    var frame := ServerWriteUpdate(collectionid, docid, update, clock);
    var effects := ServerUpdateEffects(ServerUpdate(collectionid, docid, update, clock), view);
    ServerUpdateRoundTrip(collectionid, docid, update, clock, [], view);
    assert frame + [] == frame;
    assert effects + [] == effects;
  }

  /** One update's effects on the collections: the update is always
      stored; a known collection takes the update's clock and nothing else
      moves; an unknown one is left as it was; the update reaches the
      document only when it is loaded. */
  lemma UpdateEffectsOnCollections(m: OMap<Loaded>, u: ServerUpdate)
    ensures var effects := ServerUpdateEffects(u, View(m));
            effects[0] == StoreUpdate(u.collectionid, u.docid, u.update, u.clock)
            && (u.collectionid in m.entries ==>
                  WithClocks(m, effects) == m.(entries := m.entries[u.collectionid := m.entries[u.collectionid].(clock := u.clock)]))
            && (u.collectionid !in m.entries ==> effects == [StoreUpdate(u.collectionid, u.docid, u.update, u.clock)] && WithClocks(m, effects) == m)
            && (ApplyUpdate(u.collectionid, u.docid, u.update) in effects
                <==> u.collectionid in m.entries && u.docid in m.entries[u.collectionid].ydocs)
  {
    var effects := ServerUpdateEffects(u, View(m));
    var store := [StoreUpdate(u.collectionid, u.docid, u.update, u.clock)];
    assert store[..0] == [];
    if u.collectionid in m.entries {
      var setClock := store + [SetClock(u.collectionid, u.clock)];
      assert setClock[..1] == store;
      assert WithClocks(m, store) == m by {
        assert WithClocks(m, store[..0]) == m;
      }
      assert WithClocks(m, setClock) == m.(entries := m.entries[u.collectionid := m.entries[u.collectionid].(clock := u.clock)]);
      if u.docid in m.entries[u.collectionid].ydocs {
        assert effects == setClock + [ApplyUpdate(u.collectionid, u.docid, u.update)];
        assert effects[..2] == setClock;
      } else {
        assert effects == setClock;
      }
    } else {
      assert effects == store;
    }
  }

  /** The provider reading a server update frame: the frame is read to its
      end; the update is always stored; a known collection takes the
      update's clock and nothing else moves; an unknown one is left as it
      was; the update reaches the document only when it is loaded. */
  lemma UpdateFrameEffect(m: OMap<Loaded>, collectionid: Str, docid: Str, update: seq<byte>, clock: Str)
    ensures var read := ClientFrame(ServerWriteUpdate(collectionid, docid, update, clock), View(m));
            read.completed && read.effects[0] == StoreUpdate(collectionid, docid, update, clock)
            && (collectionid in m.entries ==>
                  WithClocks(m, read.effects) == m.(entries := m.entries[collectionid := m.entries[collectionid].(clock := clock)]))
            && (collectionid !in m.entries ==> read.effects == [StoreUpdate(collectionid, docid, update, clock)] && WithClocks(m, read.effects) == m)
            && (ApplyUpdate(collectionid, docid, update) in read.effects
                <==> collectionid in m.entries && docid in m.entries[collectionid].ydocs)
  {
    ReadUpdateFrame(collectionid, docid, update, clock, View(m));
    UpdateEffectsOnCollections(m, ServerUpdate(collectionid, docid, update, clock));
  }

  // ---------------------------------------------------------------------
  // subscribing

  /** The `(collectionid, clock)` pairs `clientRequestSubscriptions` writes
      for a map of collections, in its key order. */
  function Subscriptions(m: OMap<Loaded>): seq<Subscription>
    requires forall k :: k in m.keys ==> k in m.entries
  {
    seq(|m.keys|, i requires 0 <= i < |m.keys| => Subscription(m.keys[i], m.entries[m.keys[i]].clock))
  }

  /** The server reads a subscription request as one subscription per
      pair, in order, with no pending id and nothing left over. */
  lemma SubscriptionFrameRead(subs: seq<Subscription>)
    ensures ServerFrame(Wire(SubscribeRequest(subs))) == ServerRead(Subscribes(subs), [], true)
  {
    SubscriptionsRoundTrip(subs, []);
    assert ClientRequestSubscriptions(subs) + [] == ClientRequestSubscriptions(subs);
    assert Subscribes(subs) + [] == Subscribes(subs);
  }

  /** The subscriptions of the request sent on open name every known
      collection exactly once, at the collection's clock, and nothing else. */
  lemma SubscriptionsCoverCollections(m: OMap<Loaded>)
    requires OrderedMaps.Valid(m)
    ensures |Subscribes(Subscriptions(m))| == |m.entries|
    ensures forall c, clock :: Subscribe(c, clock) in Subscribes(Subscriptions(m)) <==> c in m.entries && m.entries[c].clock == clock
  {
    var effects := Subscribes(Subscriptions(m));
    assert m.entries.Keys == set k | k in m.keys;
    DistinctCardinality(m.keys);
    forall c, clock
      ensures Subscribe(c, clock) in effects <==> c in m.entries && m.entries[c].clock == clock
    {
      if c in m.entries && m.entries[c].clock == clock {
        var i :| 0 <= i < |m.keys| && m.keys[i] == c;
        assert effects[i] == Subscribe(c, clock);
      }
    }
  }

  /** Together: the frame sent on open makes the server subscribe to every
      known collection exactly once, at its clock, and to nothing else. */
  lemma SubscriptionFrameCoversCollections(m: OMap<Loaded>)
    requires OrderedMaps.Valid(m)
    ensures var read := ServerFrame(Wire(SubscribeRequest(Subscriptions(m))));
            read.completed && read.pendingids == [] && |read.effects| == |m.entries|
            && forall c, clock :: Subscribe(c, clock) in read.effects <==> c in m.entries && m.entries[c].clock == clock
  {
    SubscriptionFrameRead(Subscriptions(m));
    SubscriptionsCoverCollections(m);
  }

  /** The loaded documents of each known collection. */
  function DocsOf(m: OMap<Loaded>): map<Str, map<Str, nat>>
  {
    map c | c in m.entries :: m.entries[c].ydocs
  }

  /** Every document handle names a document created with that id. */
  ghost predicate Named(guids: seq<Str>, docs: map<Str, map<Str, nat>>)
  {
    forall c, d :: c in docs && d in docs[c] ==> docs[c][d] < |guids| && guids[docs[c][d]] == d
  }

  /** The document `getDoc` finds for an id: in the known collection, else
      in the loading one. */
  function Lookup(collections: OMap<Loaded>, loading: OMap<map<Str, nat>>, collectionid: Str, docid: Str): Option<nat>
  {
    var ydocs :=
      if collectionid in collections.entries then collections.entries[collectionid].ydocs
      else if collectionid in loading.entries then loading.entries[collectionid]
      else map[];
    if docid in ydocs then Some(ydocs[docid]) else None
  }

  // ---------------------------------------------------------------------
  // local updates

  /** The collections, in key order, whose document `docid` is this very
      document. */
  function Holders(keys: seq<Str>, docs: map<Str, map<Str, nat>>, docid: Str, doc: nat): seq<Str>
  {
    if keys == [] then []
    else
      var c := keys[|keys| - 1];
      Holders(keys[..|keys| - 1], docs, docid, doc)
      + if c in docs && docid in docs[c] && docs[c][docid] == doc then [c] else []
  }

  lemma {:induction false} HoldersComplete(keys: seq<Str>, docs: map<Str, map<Str, nat>>, docid: Str, doc: nat)
    ensures forall c :: c in Holders(keys, docs, docid, doc)
                    <==> c in keys && c in docs && docid in docs[c] && docs[c][docid] == doc
    ensures Distinct(keys) ==> Distinct(Holders(keys, docs, docid, doc))
  {
    if keys != [] {
      var init := keys[..|keys| - 1];
      HoldersComplete(init, docs, docid, doc);
      assert keys == init + [keys[|keys| - 1]];
      assert Distinct(keys) ==> Distinct(init) && keys[|keys| - 1] !in init;
    }
  }

  function PendingStores(targets: seq<Str>, docid: Str, update: seq<byte>): seq<StorageCall>
  {
    seq(|targets|, i requires 0 <= i < |targets| => StorePendingUpdate(targets[i], docid, update))
  }

  // ---------------------------------------------------------------------
  // the collections the storage lists at start-up

  /** `subCollections` after the listing: one entry per collection id, in
      first-listed order, holding the last clock listed for it. */
  function Listed(clocks: seq<Subscription>): (r: OMap<Loaded>)
    ensures OrderedMaps.Valid(r)
  {
    if clocks == [] then Empty()
    else Set(Listed(clocks[..|clocks| - 1]), clocks[|clocks| - 1].collectionid, Loaded(map[], clocks[|clocks| - 1].clock))
  }

  /** The listed collections, each once, in first-listed order. */
  lemma {:induction false} ListedKeys(clocks: seq<Subscription>)
    ensures forall c :: c in Listed(clocks).entries <==> exists i :: 0 <= i < |clocks| && clocks[i].collectionid == c
  {
    if clocks != [] {
      var init := clocks[..|clocks| - 1];
      var last := clocks[|clocks| - 1];
      ListedKeys(init);
      assert forall i :: 0 <= i < |init| ==> init[i] == clocks[i];
      var r := Listed(clocks);
      forall c
        ensures c in r.entries <==> exists i :: 0 <= i < |clocks| && clocks[i].collectionid == c
      {
        if c != last.collectionid && c in r.entries {
          var i :| 0 <= i < |init| && init[i].collectionid == c;
          assert clocks[i].collectionid == c;
        }
        if exists i :: 0 <= i < |clocks| && clocks[i].collectionid == c {
          var i :| 0 <= i < |clocks| && clocks[i].collectionid == c;
          if i < |init| {
            assert init[i].collectionid == c;
          }
        }
      }
    }
  }

  /** The collections after `setIfUndefined` with each listed clock. */
  function Adopted(m: OMap<Loaded>, clocks: seq<Subscription>): OMap<Loaded>
  {
    if clocks == [] then m
    else SetIfUndefined(Adopted(m, clocks[..|clocks| - 1]), clocks[|clocks| - 1].collectionid, Loaded(map[], clocks[|clocks| - 1].clock))
  }

  /** Known collections keep their documents and clock, listed new ones
      join with no documents, and nothing else joins. */
  lemma {:induction false} AdoptedKeys(m: OMap<Loaded>, clocks: seq<Subscription>)
    ensures OrderedMaps.Valid(m) ==> OrderedMaps.Valid(Adopted(m, clocks))
    ensures forall c :: c in m.entries ==> c in Adopted(m, clocks).entries && Adopted(m, clocks).entries[c] == m.entries[c]
    ensures forall c :: c in Adopted(m, clocks).entries && c !in m.entries ==> Adopted(m, clocks).entries[c].ydocs == map[]
    ensures forall c :: c in Adopted(m, clocks).entries <==> c in m.entries || exists i :: 0 <= i < |clocks| && clocks[i].collectionid == c
  {
    if clocks != [] {
      var init := clocks[..|clocks| - 1];
      var last := clocks[|clocks| - 1];
      AdoptedKeys(m, init);
      var r := Adopted(m, clocks);
      forall c
        ensures c in r.entries <==> c in m.entries || exists i :: 0 <= i < |clocks| && clocks[i].collectionid == c
      {
        if c != last.collectionid && c in r.entries && c !in m.entries {
          var i :| 0 <= i < |init| && init[i].collectionid == c;
          assert clocks[i].collectionid == c;
        }
        if exists i :: 0 <= i < |clocks| && clocks[i].collectionid == c {
          var i :| 0 <= i < |clocks| && clocks[i].collectionid == c;
          if i < |init| {
            assert init[i].collectionid == c;
          }
        }
      }
    }
  }

  // ---------------------------------------------------------------------
  // the provider's invariants

  /** At most one socket, either connecting or connected, and always the
      newest; nothing waits in the cache while connected. */
  ghost predicate LinkOk(ws: Option<nat>, connected: bool, connecting: bool, sockets: nat, cache: seq<Outgoing>)
  {
    !(connected && connecting)
    && (ws.None? <==> !connected && !connecting)
    && (ws.Some? ==> ws.value + 1 == sockets)
    && (connected ==> cache == [])
  }

  /** Both maps well formed; no collection is ever initialized twice, every
      loading collection is being initialized, and one that was asked for is
      known or loading; every document handle is named after its id. */
  ghost predicate StoreOk(collections: OMap<Loaded>, loading: OMap<map<Str, nat>>, inits: seq<Str>, guids: seq<Str>)
  {
    OrderedMaps.Valid(collections) && OrderedMaps.Valid(loading)
    && Distinct(inits)
    && (forall c :: c in loading.entries ==> c in inits)
    && (forall c :: c in inits ==> c in collections.entries || c in loading.entries)
    && Named(guids, DocsOf(collections)) && Named(guids, loading.entries)
  }

  lemma NamedGrows(guids: seq<Str>, docs: map<Str, map<Str, nat>>, docid: Str)
    requires Named(guids, docs)
    ensures Named(guids + [docid], docs)
  {
    forall c, d | c in docs && d in docs[c]
      ensures (guids + [docid])[docs[c][d]] == d
    {
    }
  }

  /** Asking storage to initialize a collection that is neither known nor
      loading keeps every collection initialized at most once. */
  lemma SubscribeKeepsStoreOk(collections: OMap<Loaded>, loading: OMap<map<Str, nat>>, inits: seq<Str>, guids: seq<Str>, collectionid: Str)
    requires StoreOk(collections, loading, inits, guids)
    requires collectionid !in collections.entries && collectionid !in loading.entries
    ensures StoreOk(collections, Set(loading, collectionid, map[]), inits + [collectionid], guids)
  {
  }

  /** A loading collection that becomes known keeps the invariant. */
  lemma InitializeKeepsStoreOk(collections: OMap<Loaded>, loading: OMap<map<Str, nat>>, inits: seq<Str>, guids: seq<Str>, collectionid: Str, clock: Str)
    requires StoreOk(collections, loading, inits, guids)
    requires collectionid in loading.entries
    ensures StoreOk(Set(collections, collectionid, Loaded(loading.entries[collectionid], clock)), Delete(loading, collectionid), inits, guids)
  {
    var cols := Set(collections, collectionid, Loaded(loading.entries[collectionid], clock));
    assert DocsOf(cols) == DocsOf(collections)[collectionid := loading.entries[collectionid]];
  }

  /** Opening a document in a known collection keeps the invariant. */
  lemma OpenKnownKeepsStoreOk(collections: OMap<Loaded>, loading: OMap<map<Str, nat>>, inits: seq<Str>, guids: seq<Str>, collectionid: Str, docid: Str)
    requires StoreOk(collections, loading, inits, guids)
    requires collectionid in collections.entries
    ensures var c := collections.entries[collectionid];
            StoreOk(Set(collections, collectionid, c.(ydocs := c.ydocs[docid := |guids|])), loading, inits, guids + [docid])
  {
    var c := collections.entries[collectionid];
    var cols := Set(collections, collectionid, c.(ydocs := c.ydocs[docid := |guids|]));
    NamedGrows(guids, loading.entries, docid);
    var g := guids + [docid];
    var docs := DocsOf(cols);
    assert docs == DocsOf(collections)[collectionid := c.ydocs[docid := |guids|]];
    forall a, d | a in docs && d in docs[a]
      ensures docs[a][d] < |g| && g[docs[a][d]] == d
    {
      if a != collectionid || d != docid {
        assert docs[a][d] == DocsOf(collections)[a][d];
      }
    }
  }

  /** Opening a document in a loading collection keeps the invariant. */
  lemma OpenLoadingKeepsStoreOk(collections: OMap<Loaded>, loading: OMap<map<Str, nat>>, inits: seq<Str>, guids: seq<Str>, collectionid: Str, docid: Str)
    requires StoreOk(collections, loading, inits, guids)
    requires collectionid in loading.entries
    ensures StoreOk(collections, Set(loading, collectionid, loading.entries[collectionid][docid := |guids|]), inits, guids + [docid])
  {
    NamedGrows(guids, DocsOf(collections), docid);
    NamedGrows(guids, loading.entries, docid);
  }

  /** Reading a frame moves clocks only, which keeps the invariant. */
  lemma WithClocksKeepsStoreOk(collections: OMap<Loaded>, loading: OMap<map<Str, nat>>, inits: seq<Str>, guids: seq<Str>, effects: seq<ClientEffect>)
    requires StoreOk(collections, loading, inits, guids)
    ensures StoreOk(WithClocks(collections, effects), loading, inits, guids)
  {
    assert DocsOf(WithClocks(collections, effects)) == DocsOf(collections);
  }

  /** Adopting the listed collections keeps the invariant. */
  lemma AdoptKeepsStoreOk(collections: OMap<Loaded>, loading: OMap<map<Str, nat>>, inits: seq<Str>, guids: seq<Str>, clocks: seq<Subscription>)
    requires StoreOk(collections, loading, inits, guids)
    ensures StoreOk(Adopted(collections, clocks), loading, inits, guids)
  {
    AdoptedKeys(collections, clocks);
    var docs := DocsOf(Adopted(collections, clocks));
    forall c, d | c in docs && d in docs[c]
      ensures docs[c][d] < |guids| && guids[docs[c][d]] == d
    {
      assert c in collections.entries;
      assert docs[c] == DocsOf(collections)[c];
    }
  }

  class RedisWebsocketProvider {
    var collections: OMap<Loaded>
    /** `loadingCollections`: collections waiting for `initializeCollection`. */
    var loadingCollections: OMap<map<Str, nat>>
    var ws: Option<nat>
    var wsconnected: bool
    var wsconnecting: bool
    var wsLastMessageReceived: int
    var wsUnsuccessfulReconnects: nat
    var shouldConnect: bool
    /** `_messageCache`: frames waiting for a connection, oldest first. */
    var messageCache: seq<Outgoing>
    /** Sockets created so far; the next one gets this number. */
    var sockets: nat
    var sent: seq<Sent>
    /** `close()` calls, by socket. */
    var closes: seq<nat>
    var events: seq<Status>
    var storageCalls: seq<StorageCall>
    /** The collections `initializeCollection` was called for, in order. */
    var initRequests: seq<Str>
    /** What `clientReadMessage` did to storage, documents and listeners. */
    var received: seq<ClientEffect>
    /** The id of each document created, by handle. */
    var guids: seq<Str>

    ghost predicate Valid()
      reads this
    {
      LinkOk(ws, wsconnected, wsconnecting, sockets, messageCache)
      && (wsconnected ==> wsUnsuccessfulReconnects == 0)
      && StoreOk(collections, loadingCollections, initRequests, guids)
    }

    /** `new RedisWebsocketProvider(url)`: ask storage for its collections,
        then `connect()`. */
    constructor ()
      ensures Valid()
      ensures collections == Empty() && loadingCollections == Empty()
      ensures ws == Some(0) && wsconnecting && !wsconnected && sockets == 1 && shouldConnect
      ensures wsLastMessageReceived == 0 && wsUnsuccessfulReconnects == 0
      ensures events == [Connecting] && storageCalls == [GetCollections] && initRequests == []
      ensures messageCache == [] && sent == [] && closes == [] && received == [] && guids == []
    {
      collections := Empty();
      loadingCollections := Empty();
      ws := None;
      wsconnected := false;
      wsconnecting := false;
      wsLastMessageReceived := 0;
      wsUnsuccessfulReconnects := 0;
      shouldConnect := true;
      messageCache := [];
      sockets := 0;
      sent := [];
      closes := [];
      events := [];
      storageCalls := [GetCollections];
      initRequests := [];
      received := [];
      guids := [];
      new;
      Connect();
    }

    /** `setupWS(provider)`: open a new socket only when the provider should
        connect and has none. */
    method SetupWS()
      requires Valid()
      modifies this`ws, this`sockets, this`wsconnecting, this`wsconnected, this`events
      ensures Valid()
      ensures old(shouldConnect && ws.None?) ==>
                ws == Some(old(sockets)) && sockets == old(sockets) + 1 && wsconnecting && !wsconnected
                && events == old(events) + [Connecting]
      ensures !old(shouldConnect && ws.None?) ==> unchanged(this`ws, this`sockets, this`wsconnecting, this`wsconnected, this`events)
    {
      if shouldConnect && ws.None? {
        ws := Some(sockets);
        sockets := sockets + 1;
        wsconnecting := true;
        wsconnected := false;
        events := events + [Connecting];
      }
    }

    /** The socket opened: report connected, subscribe to every known
        collection at its clock, then flush the cache oldest first. */
    method OnOpen(socket: nat, now: int)
      requires Valid() && ws == Some(socket) && wsconnecting
      modifies this`wsLastMessageReceived, this`wsconnecting, this`wsconnected, this`wsUnsuccessfulReconnects, this`events, this`sent, this`messageCache
      ensures Valid()
      ensures ws == Some(socket) && wsconnected && !wsconnecting
      ensures wsLastMessageReceived == now && wsUnsuccessfulReconnects == 0
      ensures events == old(events) + [Connected]
      ensures sent == old(sent) + [Sent(socket, SubscribeRequest(Subscriptions(collections)))]
                      + SentOn(socket, old(messageCache))
      ensures messageCache == []
    {
      FlushOnOpen(socket);
      MarkConnected(now);
    }

    /** The writes of `onopen`: the subscription request, then the cache,
        which is left empty. */
    method FlushOnOpen(socket: nat)
      requires Valid() && ws == Some(socket) && wsconnecting
      modifies this`sent, this`messageCache
      ensures Valid()
      ensures sent == old(sent) + [Sent(socket, SubscribeRequest(Subscriptions(collections)))]
                      + SentOn(socket, old(messageCache))
      ensures messageCache == []
    {
      var frames := OpenFrames(socket, collections, messageCache);
      sent := sent + frames;
      messageCache := [];
    }

    /** The bookkeeping of `onopen`: connected, silent since now, no
        failures, and the status event. */
    method MarkConnected(now: int)
      requires Valid() && ws.Some? && wsconnecting && messageCache == []
      modifies this`wsLastMessageReceived, this`wsconnecting, this`wsconnected, this`wsUnsuccessfulReconnects, this`events
      ensures Valid()
      ensures wsconnected && !wsconnecting
      ensures wsLastMessageReceived == now && wsUnsuccessfulReconnects == 0
      ensures events == old(events) + [Connected]
    {
      wsLastMessageReceived := now;
      wsconnecting := false;
      wsconnected := true;
      wsUnsuccessfulReconnects := 0;
      events := events + [Connected];
    }

    /** The socket closed: forget it; a socket that had opened reports
        disconnected, one that never opened counts a failure. Returns the
        delay after which `setupWS` runs again. */
    method OnClose(socket: nat, log10: real -> real) returns (delay: real)
      requires Valid() && ws == Some(socket)
      modifies this`ws, this`wsconnecting, this`wsconnected, this`events, this`wsUnsuccessfulReconnects
      ensures Valid()
      ensures ws == None && !wsconnected && !wsconnecting
      ensures old(wsconnected) ==> events == old(events) + [Disconnected] && wsUnsuccessfulReconnects == old(wsUnsuccessfulReconnects)
      ensures !old(wsconnected) ==> events == old(events) && wsUnsuccessfulReconnects == old(wsUnsuccessfulReconnects) + 1
      ensures delay == ReconnectDelay(wsUnsuccessfulReconnects, log10)
      ensures old(wsconnected) && log10(1.0) == 0.0 ==> delay == 0.0
      ensures !old(wsconnected) ==> delay == ReconnectDelay(old(wsUnsuccessfulReconnects) + 1, log10)
    {
      ws := None;
      wsconnecting := false;
      if wsconnected {
        wsconnected := false;
        events := events + [Disconnected];
      } else {
        wsUnsuccessfulReconnects := wsUnsuccessfulReconnects + 1;
      }
      delay := ReconnectDelay(wsUnsuccessfulReconnects, log10);
    }

    /** A frame arrived: note the time and read it against the known
        collections. */
    method OnMessage(socket: nat, frame: seq<byte>, now: int)
      requires Valid() && ws == Some(socket)
      modifies this`wsLastMessageReceived, this`received, this`collections
      ensures Valid()
      ensures var read := ClientFrame(frame, View(old(collections)));
              received == old(received) + read.effects && collections == WithClocks(old(collections), read.effects)
      ensures wsLastMessageReceived == now
    {
      wsLastMessageReceived := now;
      var effects, _ := ClientReadMessage(frame, View(collections));
      WithClocksKeepsStoreOk(collections, loadingCollections, initRequests, guids, effects);
      received := received + effects;
      collections := WithClocks(collections, effects);
    }

    /** `_send(message)`: straight out when connected, else cached. */
    method Send(frame: Outgoing)
      requires Valid()
      modifies this`sent, this`messageCache
      ensures Valid()
      ensures wsconnected ==> ws.Some? && sent == old(sent) + [Sent(ws.value, frame)] && messageCache == old(messageCache)
      ensures !wsconnected ==> sent == old(sent) && messageCache == old(messageCache) + [frame]
    {
      if wsconnected {
        sent := sent + [Sent(ws.value, frame)];
      } else {
        messageCache := messageCache + [frame];
      }
    }

    /** One tick of the watchdog interval: a connection silent for longer
        than `messageReconnectTimeout` is closed. */
    method WatchdogTick(now: int)
      requires Valid()
      modifies this`closes
      ensures Valid()
      ensures closes == old(closes) + if old(wsconnected) && MESSAGE_RECONNECT_TIMEOUT < now - old(wsLastMessageReceived)
                                      then [old(ws).value] else []
    {
      if wsconnected && MESSAGE_RECONNECT_TIMEOUT < now - wsLastMessageReceived {
        closes := closes + [ws.value];
      }
    }

    /** `subscribeCollection(collectionid)`: a collection neither known nor
        loading starts loading, and storage is asked to initialize it. */
    method SubscribeCollection(collectionid: Str)
      requires Valid()
      modifies this`loadingCollections, this`initRequests
      ensures Valid()
      ensures collectionid in collections.entries || collectionid in loadingCollections.entries
      ensures old(collectionid in collections.entries || collectionid in loadingCollections.entries) ==>
                loadingCollections == old(loadingCollections) && initRequests == old(initRequests)
      ensures !old(collectionid in collections.entries || collectionid in loadingCollections.entries) ==>
                loadingCollections == Set(old(loadingCollections), collectionid, map[])
                && initRequests == old(initRequests) + [collectionid]
    {
      if collectionid !in collections.entries && collectionid !in loadingCollections.entries {
        SubscribeKeepsStoreOk(collections, loadingCollections, initRequests, guids, collectionid);
        loadingCollections := Set(loadingCollections, collectionid, map[]);
        initRequests := initRequests + [collectionid];
      }
    }

    /** `initializeCollection` answered with the collection's clock: the
        loading collection becomes known, keeping the documents opened
        meanwhile, and is subscribed to at once if connected. */
    method OnCollectionInitialized(collectionid: Str, clock: Str)
      requires Valid() && collectionid in loadingCollections.entries
      modifies this`collections, this`loadingCollections, this`sent, this`messageCache
      ensures Valid()
      ensures collections == Set(old(collections), collectionid, Loaded(old(loadingCollections.entries[collectionid]), clock))
      ensures loadingCollections == Delete(old(loadingCollections), collectionid)
      ensures old(wsconnected) ==> sent == old(sent) + [Sent(old(ws).value, SubscribeRequest([Subscription(collectionid, clock)]))]
      ensures !old(wsconnected) ==> sent == old(sent)
      ensures messageCache == old(messageCache)
    {
      var ydocs := loadingCollections.entries[collectionid];
      InitializeKeepsStoreOk(collections, loadingCollections, initRequests, guids, collectionid, clock);
      collections := Set(collections, collectionid, Loaded(ydocs, clock));
      loadingCollections := Delete(loadingCollections, collectionid);
      if wsconnected {
        Send(SubscribeRequest([Subscription(collectionid, clock)]));
      }
    }

    /** `getDoc(collectionid, docid)`: subscribe to the collection, then
        hand back the document already opened under that id, or open one
        and ask storage for its stored and pending updates. */
    method GetDoc(collectionid: Str, docid: Str) returns (doc: nat)
      requires Valid()
      modifies this`collections, this`loadingCollections, this`initRequests, this`guids, this`storageCalls
      ensures Valid()
      ensures doc < |guids| && guids[doc] == docid
      ensures Lookup(collections, loadingCollections, collectionid, docid) == Some(doc)
      ensures initRequests == old(initRequests) + if old(collectionid in collections.entries || collectionid in loadingCollections.entries)
                                                   then [] else [collectionid]
      ensures var found := Lookup(old(collections), old(loadingCollections), collectionid, docid);
              (found.Some? ==> doc == found.value && guids == old(guids) && storageCalls == old(storageCalls))
              && (found.None? ==> doc == |old(guids)| && guids == old(guids) + [docid]
                                  && storageCalls == old(storageCalls) + [LoadDocument(collectionid, docid)])
      ensures collections.keys == old(collections.keys)
    {
      SubscribeCollection(collectionid);
      assert Lookup(collections, loadingCollections, collectionid, docid) == Lookup(old(collections), old(loadingCollections), collectionid, docid);
      doc := OpenDoc(collectionid, docid);
    }

    /** The `setIfUndefined(ydocs, docid, …)` half of `getDoc`, once the
        collection is known or loading. */
    method OpenDoc(collectionid: Str, docid: Str) returns (doc: nat)
      requires Valid()
      requires collectionid in collections.entries || collectionid in loadingCollections.entries
      modifies this`collections, this`loadingCollections, this`guids, this`storageCalls
      ensures Valid()
      ensures doc < |guids| && guids[doc] == docid
      ensures Lookup(collections, loadingCollections, collectionid, docid) == Some(doc)
      ensures var found := Lookup(old(collections), old(loadingCollections), collectionid, docid);
              (found.Some? ==> doc == found.value && guids == old(guids) && storageCalls == old(storageCalls))
              && (found.None? ==> doc == |old(guids)| && guids == old(guids) + [docid]
                                  && storageCalls == old(storageCalls) + [LoadDocument(collectionid, docid)])
      ensures collections.keys == old(collections.keys)
    {
      var found := Lookup(collections, loadingCollections, collectionid, docid);
      if found.Some? {
        if collectionid in collections.entries {
          assert DocsOf(collections)[collectionid] == collections.entries[collectionid].ydocs;
        }
        doc := found.value;
      } else if collectionid in collections.entries {
        doc := AddToKnown(collectionid, docid);
      } else {
        doc := AddToLoading(collectionid, docid);
      }
    }

    /** A new document in a known collection: the next handle, registered
        under the collection, and a load request for it. */
    method AddToKnown(collectionid: Str, docid: Str) returns (doc: nat)
      requires Valid() && collectionid in collections.entries && docid !in collections.entries[collectionid].ydocs
      modifies this`collections, this`guids, this`storageCalls
      ensures Valid()
      ensures doc == |old(guids)| && guids == old(guids) + [docid]
      ensures storageCalls == old(storageCalls) + [LoadDocument(collectionid, docid)]
      ensures var c := old(collections).entries[collectionid];
              collections == Set(old(collections), collectionid, c.(ydocs := c.ydocs[docid := doc]))
    {
      var c := collections.entries[collectionid];
      OpenKnownKeepsStoreOk(collections, loadingCollections, initRequests, guids, collectionid, docid);
      doc := |guids|;
      guids := guids + [docid];
      collections := Set(collections, collectionid, c.(ydocs := c.ydocs[docid := doc]));
      storageCalls := storageCalls + [LoadDocument(collectionid, docid)];
    }

    /** A new document in a collection still loading: the same, under the
        loading entry. */
    method AddToLoading(collectionid: Str, docid: Str) returns (doc: nat)
      requires Valid() && collectionid !in collections.entries && collectionid in loadingCollections.entries
      requires docid !in loadingCollections.entries[collectionid]
      modifies this`loadingCollections, this`guids, this`storageCalls
      ensures Valid()
      ensures doc == |old(guids)| && guids == old(guids) + [docid]
      ensures storageCalls == old(storageCalls) + [LoadDocument(collectionid, docid)]
      ensures loadingCollections == Set(old(loadingCollections), collectionid, old(loadingCollections).entries[collectionid][docid := doc])
    {
      var ydocs := loadingCollections.entries[collectionid];
      OpenLoadingKeepsStoreOk(collections, loadingCollections, initRequests, guids, collectionid, docid);
      doc := |guids|;
      guids := guids + [docid];
      loadingCollections := Set(loadingCollections, collectionid, ydocs[docid := doc]);
      storageCalls := storageCalls + [LoadDocument(collectionid, docid)];
    }

    /** `_updateHandler(update, origin, ydoc)`: an update that did not come
        from the provider itself is stored as pending in every collection,
        known ones first, that holds this document. Returns those
        collections. */
    method UpdateHandler(update: seq<byte>, fromProvider: bool, doc: nat) returns (targets: seq<Str>)
      requires Valid() && doc < |guids|
      modifies this`storageCalls
      ensures Valid()
      ensures fromProvider ==> targets == []
      ensures !fromProvider ==>
                targets == Holders(collections.keys, DocsOf(collections), guids[doc], doc)
                           + Holders(loadingCollections.keys, loadingCollections.entries, guids[doc], doc)
      ensures storageCalls == old(storageCalls) + PendingStores(targets, guids[doc], update)
    {
      targets := [];
      if !fromProvider {
        var known := FindHolders(collections.keys, DocsOf(collections), guids[doc], doc);
        var loading := FindHolders(loadingCollections.keys, loadingCollections.entries, guids[doc], doc);
        targets := known + loading;
      }
      storageCalls := storageCalls + PendingStores(targets, guids[doc], update);
    }

    /** `storePendingUpdate` answered with the update's pending id: send the
        update to the server under that id. */
    method OnPendingStored(collectionid: Str, docid: Str, update: seq<byte>, pendingid: Str)
      requires Valid()
      modifies this`sent, this`messageCache
      ensures Valid()
      ensures var frame := UpdateRequest(collectionid, [DocUpdate(docid, update, pendingid)]);
              (wsconnected ==> ws.Some? && sent == old(sent) + [Sent(ws.value, frame)] && messageCache == old(messageCache))
              && (!wsconnected ==> sent == old(sent) && messageCache == old(messageCache) + [frame])
    {
      Send(UpdateRequest(collectionid, [DocUpdate(docid, update, pendingid)]));
    }

    /** `getCollections` answered: every listed collection not yet known
        becomes known at its stored clock, and, if connected, the listed
        collections are subscribed to. */
    method OnCollectionsListed(clocks: seq<Subscription>)
      requires Valid()
      modifies this`collections, this`sent, this`messageCache
      ensures Valid()
      ensures collections == Adopted(old(collections), clocks)
      ensures old(wsconnected) ==> sent == old(sent) + [Sent(old(ws).value, SubscribeRequest(Subscriptions(Listed(clocks))))]
      ensures !old(wsconnected) ==> sent == old(sent)
      ensures messageCache == old(messageCache)
    {
      var subs, cols := ListCollections(collections, clocks);
      ListedKeys(clocks);
      AdoptKeepsStoreOk(collections, loadingCollections, initRequests, guids, clocks);
      collections := cols;
      if wsconnected {
        Send(SubscribeRequest(Subscriptions(subs)));
      }
    }

    /** `disconnect()`: stop reconnecting and close the socket if any. */
    method Disconnect()
      requires Valid()
      modifies this`shouldConnect, this`closes
      ensures Valid()
      ensures !shouldConnect
      ensures closes == old(closes) + if old(ws).Some? then [old(ws).value] else []
    {
      shouldConnect := false;
      if ws.Some? {
        closes := closes + [ws.value];
      }
    }

    /** `connect()`: reconnect from now on, and open a socket at once if
        there is none. */
    method Connect()
      requires Valid()
      modifies this`shouldConnect, this`ws, this`sockets, this`wsconnecting, this`wsconnected, this`events
      ensures Valid()
      ensures shouldConnect
      ensures old(ws).None? ==>
                ws == Some(old(sockets)) && sockets == old(sockets) + 1 && wsconnecting && !wsconnected
                && events == old(events) + [Connecting]
      ensures old(ws).Some? ==> ws == old(ws) && wsconnected == old(wsconnected) && wsconnecting == old(wsconnecting)
                                && sockets == old(sockets) && events == old(events)
    {
      shouldConnect := true;
      if !wsconnected && ws.None? {
        SetupWS();
      }
    }
  }

  /** `collections.forEach(checkPublishUpdate)` on one map: the keys, in
      order, whose document `docid` is this very document. */
  method FindHolders(keys: seq<Str>, docs: map<Str, map<Str, nat>>, docid: Str, doc: nat) returns (targets: seq<Str>)
    ensures targets == Holders(keys, docs, docid, doc)
  {
    targets := [];
    var i := 0;
    while i < |keys|
      invariant 0 <= i <= |keys|
      invariant targets == Holders(keys[..i], docs, docid, doc)
    {
      assert keys[..i + 1][..i] == keys[..i];
      if keys[i] in docs && docid in docs[keys[i]] && docs[keys[i]][docid] == doc {
        targets := targets + [keys[i]];
      }
      i := i + 1;
    }
    assert keys[..i] == keys;
  }

  /** The `clocks.forEach` of the `getCollections` answer: `subCollections`
      and the provider's collections after it. */
  method ListCollections(known: OMap<Loaded>, clocks: seq<Subscription>) returns (subs: OMap<Loaded>, cols: OMap<Loaded>)
    ensures subs == Listed(clocks) && cols == Adopted(known, clocks)
  {
    subs := Empty();
    cols := known;
    var i := 0;
    while i < |clocks|
      invariant 0 <= i <= |clocks|
      invariant subs == Listed(clocks[..i]) && cols == Adopted(known, clocks[..i])
    {
      assert clocks[..i + 1][..i] == clocks[..i];
      subs := Set(subs, clocks[i].collectionid, Loaded(map[], clocks[i].clock));
      cols := SetIfUndefined(cols, clocks[i].collectionid, Loaded(map[], clocks[i].clock));
      i := i + 1;
    }
    assert clocks[..i] == clocks;
  }

  /** What `onopen` writes to a fresh socket: the subscription request for
      every collection, then the cached messages in order. */
  method OpenFrames(socket: nat, collections: OMap<Loaded>, cache: seq<Outgoing>) returns (out: seq<Sent>)
    requires forall k :: k in collections.keys ==> k in collections.entries
    ensures out == [Sent(socket, SubscribeRequest(Subscriptions(collections)))] + SentOn(socket, cache)
  {
    var flushed := SendAll(socket, cache);
    out := [Sent(socket, SubscribeRequest(Subscriptions(collections)))] + flushed;
  }

  /** The frames of a cache flushed onto one socket, in order. */
  function SentOn(socket: nat, frames: seq<Outgoing>): seq<Sent>
  {
    if frames == [] then [] else SentOn(socket, frames[..|frames| - 1]) + [Sent(socket, frames[|frames| - 1])]
  }

  /** `_messageCache.forEach(message => websocket.send(message))`: every
      cached frame goes out on the socket, oldest first, each once. */
  method SendAll(socket: nat, cache: seq<Outgoing>) returns (out: seq<Sent>)
    ensures out == SentOn(socket, cache)
    ensures |out| == |cache| && forall i :: 0 <= i < |cache| ==> out[i] == Sent(socket, cache[i])
  {
    out := [];
    var i := 0;
    while i < |cache|
      invariant 0 <= i <= |cache|
      invariant out == SentOn(socket, cache[..i])
      invariant |out| == i && forall j :: 0 <= j < i ==> out[j] == Sent(socket, cache[j])
    {
      assert cache[..i + 1][..i] == cache[..i];
      out := out + [Sent(socket, cache[i])];
      i := i + 1;
    }
    assert cache[..i] == cache;
  }

  lemma {:induction false} DistinctCardinality(keys: seq<Str>)
    requires Distinct(keys)
    ensures |set k | k in keys| == |keys|
  {
    if keys != [] {
      var init := keys[..|keys| - 1];
      DistinctCardinality(init);
      assert (set k | k in keys) == (set k | k in init) + {keys[|keys| - 1]};
    }
  }
}
