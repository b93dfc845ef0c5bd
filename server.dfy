/** The connection layer of server/websocket-server.js: one `ClientConn` per
    socket, holding the collections it subscribed to and its liveness flag;
    the module-level `clients` set; and the ping sweep that drops
    connections found not alive.

    The shared `redisConn` is seen here through its calls, recorded in order
    (the relay model says what each does); a socket is the list of frames
    handed to its `send`; socket events and the ping interval are methods
    the environment calls; the ping frame is a parameter. */
module WebsocketServer {
  import opened Text
  import P = Protocol

  /** A call on the shared `RedisConn`. */
  datatype RedisCall =
    | ListenCall(client: nat, collectionid: Str, clock: Str)
    | UnlistenCall(client: nat, collectionid: Str)
    | PublishCall(collectionid: Str, docid: Str, update: seq<byte>)

  /** `subs.add(collectionid)` on a `Set` kept in insertion order. */
  function AddSub(subs: seq<Str>, collectionid: Str): (r: seq<Str>)
    ensures Distinct(subs) ==> Distinct(r)
    ensures forall c :: c in r <==> c in subs || c == collectionid
    ensures collectionid in subs ==> r == subs
  {
    if collectionid in subs then subs else subs + [collectionid]
  }

  /** The `unlisten` calls of `destroy`: one per subscription, in order. */
  function Unlistens(client: nat, subs: seq<Str>): seq<RedisCall>
  {
    if subs == [] then [] else Unlistens(client, subs[..|subs| - 1]) + [UnlistenCall(client, subs[|subs| - 1])]
  }

  lemma {:induction false} UnlistensExactly(client: nat, subs: seq<Str>)
    ensures |Unlistens(client, subs)| == |subs|
    ensures forall k :: 0 <= k < |subs| ==> Unlistens(client, subs)[k] == UnlistenCall(client, subs[k])
  {
    if subs != [] {
      UnlistensExactly(client, subs[..|subs| - 1]);
    }
  }

  // ---------------------------------------------------------------------
  // what a message does to its connection

  /** The subscriptions after the reader's `clientConn.subscribe` calls. */
  function SubsAfter(subs: seq<Str>, effects: seq<P.ServerEffect>): seq<Str>
  {
    if effects == [] then subs
    else
      var before := SubsAfter(subs, effects[..|effects| - 1]);
      match effects[|effects| - 1]
      case Subscribe(collectionid, _) => AddSub(before, collectionid)
      case _ => before
  }

  /** The calls on `redisConn` the reader makes for this connection: a
      publish per update, a listen per subscription. */
  function CallsOf(client: nat, effects: seq<P.ServerEffect>): seq<RedisCall>
  {
    if effects == [] then []
    else
      CallsOf(client, effects[..|effects| - 1])
      + match effects[|effects| - 1]
        case Publish(collectionid, docid, update) => [PublishCall(collectionid, docid, update)]
        case Subscribe(collectionid, clock) => [ListenCall(client, collectionid, clock)]
        case Reply(_) => []
  }

  /** The frames the reader sends back on the connection. */
  function RepliesOf(effects: seq<P.ServerEffect>): seq<seq<byte>>
  {
    if effects == [] then []
    else RepliesOf(effects[..|effects| - 1]) + match effects[|effects| - 1] case Reply(frame) => [frame] case _ => []
  }

  /** The collections the reader subscribes to, in order. */
  function Subscribed(effects: seq<P.ServerEffect>): seq<Str>
  {
    if effects == [] then []
    else Subscribed(effects[..|effects| - 1]) + match effects[|effects| - 1] case Subscribe(c, _) => [c] case _ => []
  }

  /** Subscribing keeps each collection once and adds exactly the
      subscribed ones. */
  lemma {:induction false} SubsAfterAdds(subs: seq<Str>, effects: seq<P.ServerEffect>)
    ensures Distinct(subs) ==> Distinct(SubsAfter(subs, effects))
    ensures forall c :: c in SubsAfter(subs, effects) <==> c in subs || c in Subscribed(effects)
  {
    if effects != [] {
      SubsAfterAdds(subs, effects[..|effects| - 1]);
    }
  }

  /** A frame holding a subscription request subscribes the connection to
      every requested collection, asks the relay to listen at each requested
      clock, in order, and sends nothing back. */
  lemma SubscriptionFrameEffect(client: nat, subs: seq<Str>, requests: seq<P.Subscription>)
    ensures var effects := P.ServerReply(P.ClientRequestSubscriptions(requests));
            RepliesOf(effects) == []
            && CallsOf(client, effects) == ListensOf(client, requests)
            && forall c :: c in SubsAfter(subs, effects) <==> c in subs || c in CollectionIds(requests)
  {
    var frame := P.ClientRequestSubscriptions(requests);
    P.SubscriptionsRoundTrip(requests, []);
    assert frame + [] == frame;
    var effects := P.Subscribes(requests);
    assert effects + [] == effects;
    assert P.ServerReply(frame) == effects + [];
    SubscribesCalls(client, requests);
    SubsAfterAdds(subs, effects);
  }

  /** A frame holding a batch of local updates schedules one confirmation,
      naming every pending id of the batch in order; an empty batch
      schedules none. */
  lemma UpdateFrameConfirm(collectionid: Str, docUpdates: seq<P.DocUpdate>)
    ensures RepliesOf(P.ServerReply(P.EncodeDocumentUpdates(collectionid, docUpdates)))
         == if docUpdates == [] then [] else [P.EncodeConfirmingMessage(P.PendingIds(docUpdates))]
  {
    P.DocumentUpdatesAreConfirmed(collectionid, docUpdates);
    PublishesNoReply(collectionid, docUpdates);
    var effects := P.Publishes(collectionid, docUpdates);
    if docUpdates != [] {
      var all := effects + [P.Reply(P.EncodeConfirmingMessage(P.PendingIds(docUpdates)))];
      assert all[..|all| - 1] == effects;
    } else {
      assert effects + [] == effects;
    }
  }

  lemma {:induction false} PublishesNoReply(collectionid: Str, docUpdates: seq<P.DocUpdate>)
    ensures RepliesOf(P.Publishes(collectionid, docUpdates)) == []
  {
    if docUpdates != [] {
      var init := docUpdates[..|docUpdates| - 1];
      PublishesNoReply(collectionid, init);
      assert P.Publishes(collectionid, docUpdates)[..|docUpdates| - 1] == P.Publishes(collectionid, init);
    }
  }

  /** The listen calls for a list of requested subscriptions, in order. */
  function ListensOf(client: nat, requests: seq<P.Subscription>): seq<RedisCall>
  {
    if requests == [] then []
    else ListensOf(client, requests[..|requests| - 1])
         + [ListenCall(client, requests[|requests| - 1].collectionid, requests[|requests| - 1].clock)]
  }

  /** The requested collections, in order. */
  function CollectionIds(requests: seq<P.Subscription>): seq<Str>
  {
    if requests == [] then [] else CollectionIds(requests[..|requests| - 1]) + [requests[|requests| - 1].collectionid]
  }

  lemma {:induction false} SubscribesCalls(client: nat, requests: seq<P.Subscription>)
    ensures CallsOf(client, P.Subscribes(requests)) == ListensOf(client, requests)
    ensures RepliesOf(P.Subscribes(requests)) == []
    ensures Subscribed(P.Subscribes(requests)) == CollectionIds(requests)
  {
    if requests != [] {
      var init := requests[..|requests| - 1];
      SubscribesCalls(client, init);
      assert P.Subscribes(requests)[..|requests| - 1] == P.Subscribes(init);
    }
  }

  // ---------------------------------------------------------------------
  // the ping sweep, on values

  /** One connection as the sweep sees it. */
  datatype ConnState = ConnState(subs: seq<Str>, isAlive: bool, sent: seq<seq<byte>>)

  /** What the sweep leaves of one connection: a connection already not
      alive is destroyed (no subscriptions left); every one is marked not
      alive and pinged. */
  function SweepOne(s: ConnState, ping: seq<byte>): ConnState
  {
    ConnState(if s.isAlive then s.subs else [], false, s.sent + [ping])
  }

  /** The connections still in `clients` once the sweep has visited the
      first `n`: those of them that were alive, in order. */
  function Survivors<T>(cs: seq<T>, states: seq<ConnState>, n: nat): seq<T>
    requires |cs| == |states| && n <= |cs|
  {
    if n == 0 then []
    else Survivors(cs, states, n - 1) + if states[n - 1].isAlive then [cs[n - 1]] else []
  }

  /** The sweep keeps a connection exactly when it was alive. */
  lemma {:induction false} SurvivorsAreTheAlive<T>(cs: seq<T>, states: seq<ConnState>, n: nat, x: T)
    requires |cs| == |states| && n <= |cs|
    ensures x in Survivors(cs, states, n) <==> exists k :: 0 <= k < n && cs[k] == x && states[k].isAlive
  {
    if n > 0 {
      SurvivorsAreTheAlive(cs, states, n - 1, x);
    }
  }

  /** No connection is kept twice. */
  lemma {:induction false} SurvivorsDistinct<T>(cs: seq<T>, states: seq<ConnState>, n: nat)
    requires |cs| == |states| && n <= |cs| && Distinct(cs)
    ensures Distinct(Survivors(cs, states, n))
  {
    if n > 0 {
      SurvivorsDistinct(cs, states, n - 1);
      SurvivorsAreTheAlive(cs, states, n - 1, cs[n - 1]);
    }
  }

  /** When no connection is alive, the sweep keeps none: since nothing ever
      sets `isAlive` back, a second sweep drops every connection the first
      one visited. */
  lemma {:induction false} NoneAliveNoneSurvive<T>(cs: seq<T>, states: seq<ConnState>, n: nat)
    requires |cs| == |states| && n <= |cs|
    requires forall k :: 0 <= k < |states| ==> !states[k].isAlive
    ensures Survivors(cs, states, n) == []
  {
    if n > 0 {
      NoneAliveNoneSurvive(cs, states, n - 1);
    }
  }

  // ---------------------------------------------------------------------
  // the objects

  class ClientConn {
    /** The connection's identity towards the relay. */
    const id: nat
    /** `subs`: the subscribed collection ids, in insertion order. */
    var subs: seq<Str>
    var isAlive: bool
    /** The frames handed to `ws.send`, in order. */
    var sent: seq<seq<byte>>

    /** `new ClientConn(ws)`: no subscriptions, alive. */
    constructor (id: nat)
      ensures this.id == id && subs == [] && isAlive && sent == []
    {
      this.id := id;
      subs := [];
      isAlive := true;
      sent := [];
    }

    /** `subscribe(collectionid, clock)`: remember the collection and ask the
        relay to listen from that clock for this connection. */
    method Subscribe(server: Server, collectionid: Str, clock: Str)
      modifies this`subs, server`redisCalls
      ensures subs == AddSub(old(subs), collectionid)
      ensures server.redisCalls == old(server.redisCalls) + [ListenCall(id, collectionid, clock)]
    {
      subs := AddSub(subs, collectionid);
      server.Listen(id, collectionid, clock);
    }

    /** `publishUpdate(collectionid, docid, update, clock)`: exactly one
        UPDATE_SERVER frame. */
    method PublishUpdate(collectionid: Str, docid: Str, update: seq<byte>, clock: Str)
      modifies this`sent
      ensures sent == old(sent) + [P.ServerWriteUpdate(collectionid, docid, update, clock)]
    {
      Send(P.ServerWriteUpdate(collectionid, docid, update, clock));
    }

    /** `syncedCollection(collectionid)`: exactly one SYNCED frame. */
    method SyncedCollection(collectionid: Str)
      modifies this`sent
      ensures sent == old(sent) + [P.ServerWriteSynced(collectionid)]
    {
      Send(P.ServerWriteSynced(collectionid));
    }

    /** `_send(message)`. */
    method Send(message: seq<byte>)
      modifies this`sent
      ensures sent == old(sent) + [message]
    {
      sent := sent + [message];
    }

    /** `destroy()`: stop listening to every subscribed collection, in
        order, forget them, and leave `clients`. */
    method Destroy(server: Server)
      modifies this`subs, server`clients, server`redisCalls
      ensures subs == []
      ensures server.redisCalls == old(server.redisCalls) + Unlistens(id, old(subs))
      ensures server.clients == Erase(old(server.clients), this)
    {
      var i := 0;
      while i < |subs|
        invariant 0 <= i <= |subs|
        invariant server.redisCalls == old(server.redisCalls) + Unlistens(id, subs[..i])
        modifies server`redisCalls
      {
        assert subs[..i + 1][..i] == subs[..i];
        server.Unlisten(id, subs[i]);
        i := i + 1;
      }
      assert subs[..i] == subs;
      subs := [];
      server.clients := Erase(server.clients, this);
    }
  }

  /** A connection's fields as a value. */
  ghost function State(c: ClientConn): ConnState
    reads c
  {
    ConnState(c.subs, c.isAlive, c.sent)
  }

  ghost function States(cs: seq<ClientConn>): (r: seq<ConnState>)
    reads set c | c in cs
    ensures |r| == |cs| && forall k :: 0 <= k < |cs| ==> r[k] == State(cs[k])
  {
    seq(|cs|, k reads set c | c in cs requires 0 <= k < |cs| => State(cs[k]))
  }

  /** The `unlisten` calls of the sweep's visits of the first `n`
      connections: those of each destroyed one, in visiting order. */
  function SweepCalls(cs: seq<ClientConn>, states: seq<ConnState>, n: nat): seq<RedisCall>
    requires |cs| == |states| && n <= |cs|
  {
    if n == 0 then []
    else SweepCalls(cs, states, n - 1) + if states[n - 1].isAlive then [] else Unlistens(cs[n - 1].id, states[n - 1].subs)
  }

  /** The sweep destroyed connection `k`, and it was subscribed to the
      collection `call` stops listening to. */
  predicate Destroyed(cs: seq<ClientConn>, states: seq<ConnState>, k: nat, call: RedisCall)
    requires |cs| == |states| && k < |cs|
  {
    call.UnlistenCall? && !states[k].isAlive && cs[k].id == call.client && call.collectionid in states[k].subs
  }

  /** The visit of connection `m` stops listening to the collections of
      that connection, when it is destroyed. */
  lemma VisitCalls(cs: seq<ClientConn>, states: seq<ConnState>, m: nat, call: RedisCall)
    requires |cs| == |states| && m < |cs|
    ensures call in SweepCalls(cs, states, m + 1) <==> call in SweepCalls(cs, states, m) || Destroyed(cs, states, m, call)
  {
    var last := if states[m].isAlive then [] else Unlistens(cs[m].id, states[m].subs);
    assert SweepCalls(cs, states, m + 1) == SweepCalls(cs, states, m) + last;
    UnlistensExactly(cs[m].id, states[m].subs);
    if Destroyed(cs, states, m, call) {
      var j :| 0 <= j < |states[m].subs| && states[m].subs[j] == call.collectionid;
      assert last[j] == call;
    }
  }

  /** The sweep stops listening to exactly the collections of the
      connections it destroys. */
  lemma {:induction false} SweepCallsUnlistenDestroyed(cs: seq<ClientConn>, states: seq<ConnState>, n: nat, call: RedisCall)
    requires |cs| == |states| && n <= |cs|
    ensures call in SweepCalls(cs, states, n) <==> exists k :: 0 <= k < n && Destroyed(cs, states, k, call)
  {
    if n > 0 {
      var m := n - 1;
      SweepCallsUnlistenDestroyed(cs, states, m, call);
      VisitCalls(cs, states, m, call);
      if exists k :: 0 <= k < n && Destroyed(cs, states, k, call) {
        var k :| 0 <= k < n && Destroyed(cs, states, k, call);
        assert k < m || k == m;
      }
    }
  }

  /** `x` leaves a list in which it occurs once. */
  lemma {:induction false} EraseOnce<T>(a: seq<T>, x: T, b: seq<T>)
    requires x !in a && x !in b
    ensures Erase(a + [x] + b, x) == a + b
  {
    var s := a + [x] + b;
    if a == [] {
      assert s[0] == x && s[1..] == b;
      EraseAbsent(b, x);
    } else {
      assert s[1..] == a[1..] + [x] + b;
      calc {
        Erase(s, x);
        [a[0]] + Erase(a[1..] + [x] + b, x);
        { EraseOnce(a[1..], x, b); }
        [a[0]] + (a[1..] + b);
        a + b;
      }
    }
  }

  lemma {:induction false} EraseAbsent<T>(s: seq<T>, x: T)
    requires x !in s
    ensures Erase(s, x) == s
  {
    if s != [] {
      assert s[0] != x && x !in s[1..];
      EraseAbsent(s[1..], x);
      assert s == [s[0]] + s[1..];
    }
  }

  /** The module-level state of the server: the open connections and the
      calls made on the shared `redisConn`. */
  class Server {
    /** `clients`: the registered connections, in insertion order. */
    var clients: seq<ClientConn>
    var redisCalls: seq<RedisCall>
    /** Connections accepted so far; the next one gets this id. */
    var nextId: nat

    /** Each connection once, none with a future id. */
    ghost predicate Valid()
      reads this
    {
      Distinct(clients) && forall k :: 0 <= k < |clients| ==> clients[k].id < nextId
    }

    constructor ()
      ensures Valid() && clients == [] && redisCalls == [] && nextId == 0
    {
      clients := [];
      redisCalls := [];
      nextId := 0;
    }

    method Listen(client: nat, collectionid: Str, clock: Str)
      modifies this`redisCalls
      ensures redisCalls == old(redisCalls) + [ListenCall(client, collectionid, clock)]
    {
      redisCalls := redisCalls + [ListenCall(client, collectionid, clock)];
    }

    method Unlisten(client: nat, collectionid: Str)
      modifies this`redisCalls
      ensures redisCalls == old(redisCalls) + [UnlistenCall(client, collectionid)]
    {
      redisCalls := redisCalls + [UnlistenCall(client, collectionid)];
    }

    method Publish(collectionid: Str, docid: Str, update: seq<byte>)
      modifies this`redisCalls
      ensures redisCalls == old(redisCalls) + [PublishCall(collectionid, docid, update)]
    {
      redisCalls := redisCalls + [PublishCall(collectionid, docid, update)];
    }

    /** `wss.on('connection')`: a new connection, with no subscriptions and
        alive, joins `clients`. */
    method OnConnection() returns (c: ClientConn)
      requires Valid()
      modifies this`clients, this`nextId
      ensures Valid() && fresh(c)
      ensures c.id == old(nextId) && c.subs == [] && c.isAlive && c.sent == []
      ensures clients == old(clients) + [c] && nextId == old(nextId) + 1
    {
      c := new ClientConn(nextId);
      clients := clients + [c];
      nextId := nextId + 1;
    }

    /** A frame arrived on `c`'s socket: `serverReadMessage` publishes each
        update and subscribes `c` to each requested collection, in the
        reader's order. The confirmation waits for the publishes, so it is
        returned, not sent: `OnPublishesResolved` sends it once they have
        all resolved. */
    method OnMessage(c: ClientConn, message: seq<byte>) returns (confirm: seq<seq<byte>>)
      modifies this`redisCalls, c`subs
      ensures var effects := P.ServerReply(message);
              c.subs == SubsAfter(old(c.subs), effects)
              && redisCalls == old(redisCalls) + CallsOf(c.id, effects)
              && confirm == RepliesOf(effects)
    {
      var effects, _ := P.ServerReadMessage(message);
      confirm := [];
      var i := 0;
      while i < |effects|
        invariant Handled(c, effects, i, old(c.subs), old(redisCalls))
        invariant confirm == RepliesOf(effects[..i])
      {
        confirm := HandleEffect(c, effects, i, old(c.subs), old(redisCalls), confirm);
        i := i + 1;
      }
      assert effects[..i] == effects;
    }

    /** `promise.all(confirmingPromises).then(...)`: every publish of the
        frame has resolved, so `c` is sent the confirmation. When one is
        rejected this is never called, and nothing is sent. */
    method OnPublishesResolved(c: ClientConn, confirm: seq<byte>)
      modifies c`sent
      ensures c.sent == old(c.sent) + [confirm]
    {
      c.Send(confirm);
    }

    /** `c` has carried out the publishes and subscriptions among the first
        `i` effects of a message, starting from `subs0` and `calls0`. */
    ghost predicate Handled(c: ClientConn, effects: seq<P.ServerEffect>, i: nat,
                            subs0: seq<Str>, calls0: seq<RedisCall>)
      reads this, c
    {
      i <= |effects|
      && c.subs == SubsAfter(subs0, effects[..i])
      && redisCalls == calls0 + CallsOf(c.id, effects[..i])
    }

    /** Carry out effect `i` of a message on `c`; a confirmation is added to
        `confirm`, the ones the message has scheduled so far. */
    method HandleEffect(c: ClientConn, effects: seq<P.ServerEffect>, i: nat,
                        ghost subs0: seq<Str>, ghost calls0: seq<RedisCall>, confirm: seq<seq<byte>>)
      returns (confirm': seq<seq<byte>>)
      requires i < |effects| && Handled(c, effects, i, subs0, calls0) && confirm == RepliesOf(effects[..i])
      modifies this`redisCalls, c`subs
      ensures Handled(c, effects, i + 1, subs0, calls0) && confirm' == RepliesOf(effects[..i + 1])
    {
      assert effects[..i + 1][..i] == effects[..i];
      confirm' := confirm;
      match effects[i] {
        case Publish(collectionid, docid, update) =>
          Publish(collectionid, docid, update);
        case Subscribe(collectionid, clock) =>
          c.Subscribe(this, collectionid, clock);
        case Reply(frame) =>
          confirm' := confirm + [frame];
      }
    }

    /** `ws.on('close')`: destroy the connection. */
    method OnClose(c: ClientConn)
      requires Valid()
      modifies c`subs, this`clients, this`redisCalls
      ensures Valid()
      ensures c.subs == [] && c !in clients
      ensures redisCalls == old(redisCalls) + Unlistens(c.id, old(c.subs))
      ensures clients == Erase(old(clients), c)
    {
      EraseExactly(clients, c);
      c.Destroy(this);
    }

    /** `pingHandler`: visit every connection in order; one already not
        alive is destroyed; every one is then marked not alive and pinged. */
    method PingHandler(ping: seq<byte>)
      requires Valid()
      modifies this`clients, this`redisCalls, set c | c in clients
      ensures Valid()
      ensures clients == Survivors(old(clients), old(States(clients)), |old(clients)|)
      ensures forall k :: 0 <= k < |old(clients)| ==> State(old(clients)[k]) == SweepOne(old(States(clients))[k], ping)
      ensures redisCalls == old(redisCalls) + SweepCalls(old(clients), old(States(clients)), |old(clients)|)
    {
      var snapshot := clients;
      ghost var states := States(clients);
      SweepStart(snapshot, states, ping);
      SweepAll(snapshot, states, ping, redisCalls);
      SweepDone(snapshot, states, ping, old(redisCalls));
    }

    /** Before the sweep visits anything, `clients` is the whole snapshot. */
    lemma SweepStart(snapshot: seq<ClientConn>, states: seq<ConnState>, ping: seq<byte>)
      requires Valid() && clients == snapshot && states == States(snapshot)
      ensures Swept(snapshot, states, 0, ping, redisCalls)
    {
      FromStart(snapshot);
      assert redisCalls == redisCalls + SweepCalls(snapshot, states, 0);
    }

    /** The loop of `pingHandler` over a snapshot of `clients`. */
    method SweepAll(snapshot: seq<ClientConn>, ghost states: seq<ConnState>, ping: seq<byte>, ghost calls0: seq<RedisCall>)
      requires Swept(snapshot, states, 0, ping, calls0)
      modifies this`clients, this`redisCalls, set c | c in snapshot
      ensures Swept(snapshot, states, |snapshot|, ping, calls0)
    {
      var i := 0;
      while i < |snapshot|
        invariant i <= |snapshot| && Swept(snapshot, states, i, ping, calls0)
      {
        SweepVisit(snapshot, states, i, ping, calls0);
        i := i + 1;
      }
    }

    /** Once the sweep has visited every connection of `snapshot`, `clients`
        holds just its survivors, each once. */
    lemma SweepDone(snapshot: seq<ClientConn>, states: seq<ConnState>, ping: seq<byte>, calls0: seq<RedisCall>)
      requires Swept(snapshot, states, |snapshot|, ping, calls0)
      requires forall k :: 0 <= k < |snapshot| ==> snapshot[k].id < nextId
      ensures Valid()
      ensures clients == Survivors(snapshot, states, |snapshot|)
    {
      SurvivorsDistinct(snapshot, states, |snapshot|);
      forall k | 0 <= k < |clients|
        ensures clients[k].id < nextId
      {
        SurvivorsAreTheAlive(snapshot, states, |snapshot|, clients[k]);
      }
    }

    /** The sweep has visited the first `i` connections of `snapshot`,
        whose states were `states` and with `calls0` the calls before it. */
    ghost predicate Swept(snapshot: seq<ClientConn>, states: seq<ConnState>, i: nat, ping: seq<byte>, calls0: seq<RedisCall>)
      reads this, set c | c in snapshot
    {
      |states| == |snapshot| && i <= |snapshot|
      && SeqSwept(snapshot, states, i, calls0)
      && StatesSwept(snapshot, states, i, ping)
    }

    /** The survivors of the first `i` connections, then the rest, are
        the clients, and the calls so far are their `unlisten` calls. */
    ghost predicate SeqSwept(snapshot: seq<ClientConn>, states: seq<ConnState>, i: nat, calls0: seq<RedisCall>)
      requires |states| == |snapshot| && i <= |snapshot|
      reads this
    {
      && Distinct(snapshot)
      && clients == Survivors(snapshot, states, i) + From(snapshot, i)
      && redisCalls == calls0 + SweepCalls(snapshot, states, i)
    }

    /** The connections before `i` have been swept, the others are as
        they were. */
    ghost predicate StatesSwept(snapshot: seq<ClientConn>, states: seq<ConnState>, i: nat, ping: seq<byte>)
      requires |states| == |snapshot| && i <= |snapshot|
      reads set c | c in snapshot
    {
      && (forall k :: 0 <= k < i ==> State(snapshot[k]) == SweepOne(states[k], ping))
      && (forall k :: i <= k < |snapshot| ==> State(snapshot[k]) == states[k])
    }

    /** One step of the sweep: visit connection `i`. */
    method SweepVisit(snapshot: seq<ClientConn>, ghost states: seq<ConnState>, i: nat, ping: seq<byte>, ghost calls0: seq<RedisCall>)
      requires i < |snapshot| && Swept(snapshot, states, i, ping, calls0)
      modifies snapshot[i], this`clients, this`redisCalls
      ensures Swept(snapshot, states, i + 1, ping, calls0)
    {
      var c := snapshot[i];
      ghost var pre := States(snapshot);
      SweepStep(snapshot, states, i);
      Visit(c, ping, Survivors(snapshot, states, i), From(snapshot, i + 1));
      forall k | 0 <= k < |snapshot| && k != i
        ensures State(snapshot[k]) == pre[k]
      {
        assert snapshot[k] != c;
      }
      SweptStatesNext(snapshot, states, i, ping, pre);
      SweptNext(snapshot, states, i, calls0, old(redisCalls));
    }

    /** The states after the visit of connection `i`: those visited so far
        swept once, the rest untouched. */
    lemma SweptStatesNext(snapshot: seq<ClientConn>, states: seq<ConnState>, i: nat, ping: seq<byte>, pre: seq<ConnState>)
      requires i < |snapshot| && |pre| == |snapshot| && |states| == |snapshot|
      requires forall k :: 0 <= k < i ==> pre[k] == SweepOne(states[k], ping)
      requires forall k :: i <= k < |snapshot| ==> pre[k] == states[k]
      requires forall k :: 0 <= k < |snapshot| && k != i ==> State(snapshot[k]) == pre[k]
      requires State(snapshot[i]) == SweepOne(pre[i], ping)
      ensures StatesSwept(snapshot, states, i + 1, ping)
    {
      forall k | 0 <= k < i + 1
        ensures State(snapshot[k]) == SweepOne(states[k], ping)
      {
        if k < i {
          assert State(snapshot[k]) == pre[k];
        }
      }
    }

    /** The sweep invariant after the visit of connection `i`, with the
        calls `preCalls` just before it. */
    lemma SweptNext(snapshot: seq<ClientConn>, states: seq<ConnState>, i: nat, calls0: seq<RedisCall>,
                    preCalls: seq<RedisCall>)
      requires i < |snapshot| && |states| == |snapshot| && Distinct(snapshot)
      requires preCalls == calls0 + SweepCalls(snapshot, states, i)
      requires clients == Survivors(snapshot, states, i) + (if states[i].isAlive then [snapshot[i]] else []) + From(snapshot, i + 1)
      requires redisCalls == preCalls + if states[i].isAlive then [] else Unlistens(snapshot[i].id, states[i].subs)
      ensures SeqSwept(snapshot, states, i + 1, calls0)
    {
      SurvivorsNext(snapshot, states, i, From(snapshot, i + 1));
      SweepCallsNext(snapshot, states, i, calls0, preCalls, redisCalls);
    }

    /** The sweep's visit of one connection, `c`, which sits in `clients`
        between `before` and `after`. */
    method Visit(c: ClientConn, ping: seq<byte>, ghost before: seq<ClientConn>, ghost after: seq<ClientConn>)
      requires clients == before + [c] + after && c !in before && c !in after
      modifies c`subs, c`isAlive, c`sent, this`clients, this`redisCalls
      ensures State(c) == SweepOne(old(State(c)), ping)
      ensures clients == before + (if old(c.isAlive) then [c] else []) + after
      ensures redisCalls == old(redisCalls) + if old(c.isAlive) then [] else Unlistens(c.id, old(c.subs))
    {
      if !c.isAlive {
        EraseOnce(before, c, after);
        c.Destroy(this);
      }
      c.isAlive := false;
      c.sent := c.sent + [ping];
    }

    /** Two sweeps with no connection arriving in between leave `clients`
        empty, and every connection of the first without subscriptions. */
    method TwoSweeps(ping: seq<byte>)
      requires Valid()
      modifies this`clients, this`redisCalls, set c | c in clients
      ensures Valid() && clients == []
      ensures forall c :: c in old(clients) ==> c.subs == [] && !c.isAlive
    {
      ghost var first := clients;
      ghost var states := States(clients);
      PingHandler(ping);
      SweptAreDead(first, states, ping);
      FinalSweep(ping, first);
    }

    /** A sweep of connections that are all dead destroys every one of
        them, and leaves `first`, which they came from, all destroyed. */
    method FinalSweep(ping: seq<byte>, ghost first: seq<ClientConn>)
      requires Valid()
      requires forall c :: c in clients ==> c in first
      requires forall c :: c in first ==> !c.isAlive && (c !in clients ==> c.subs == [])
      modifies this`clients, this`redisCalls, set c | c in clients
      ensures Valid() && clients == []
      ensures forall c :: c in first ==> c.subs == [] && !c.isAlive
    {
      ghost var mid := clients;
      ghost var midStates := States(clients);
      PingHandler(ping);
      NoneAliveNoneSurvive(mid, midStates, |mid|);
      forall c | c in first
        ensures c.subs == [] && !c.isAlive
      {
        if c in mid {
          var j :| 0 <= j < |mid| && mid[j] == c;
          assert State(c) == SweepOne(midStates[j], ping);
        }
      }
    }

    /** After a sweep of `first`, every connection left in `clients` comes
        from `first`; none of `first` is alive, and every one the sweep
        destroyed has no subscriptions. */
    lemma SweptAreDead(first: seq<ClientConn>, states: seq<ConnState>, ping: seq<byte>)
      requires |states| == |first| && clients == Survivors(first, states, |first|)
      requires forall k :: 0 <= k < |first| ==> State(first[k]) == SweepOne(states[k], ping)
      ensures forall c :: c in clients ==> c in first
      ensures forall c :: c in first ==> !c.isAlive && (c !in clients ==> c.subs == [])
    {
      forall c | c in first
        ensures !c.isAlive && (c !in clients ==> c.subs == [])
      {
        var k :| 0 <= k < |first| && first[k] == c;
        assert State(first[k]) == SweepOne(states[k], ping);
        SurvivorsAreTheAlive(first, states, |first|, c);
      }
      forall c | c in clients
        ensures c in first
      {
        SurvivorsAreTheAlive(first, states, |first|, c);
      }
    }
  }

  /** The connections from index `i` on: those the sweep has still to
      visit. */
  function From<T>(s: seq<T>, i: nat): seq<T>
    requires i <= |s|
    decreases |s| - i
  {
    if i == |s| then [] else [s[i]] + From(s, i + 1)
  }

  lemma {:induction false} FromIsSuffix<T>(s: seq<T>, i: nat)
    requires i <= |s|
    ensures From(s, i) == s[i..]
    decreases |s| - i
  {
    if i < |s| {
      FromIsSuffix(s, i + 1);
      assert s[i..] == [s[i]] + s[i + 1..];
    }
  }

  lemma FromStart<T>(s: seq<T>)
    ensures From(s, 0) == s
  {
    FromIsSuffix(s, 0);
  }

  lemma {:induction false} FromWithin<T>(s: seq<T>, i: nat, x: T)
    requires i <= |s|
    requires x in From(s, i)
    ensures exists k :: i <= k < |s| && s[k] == x
    decreases |s| - i
  {
    if i < |s| && s[i] != x {
      FromWithin(s, i + 1, x);
    }
  }

  /** Visiting connection `i` keeps it among the survivors exactly when it
      was alive. */
  lemma SurvivorsNext<T>(cs: seq<T>, states: seq<ConnState>, i: nat, rest: seq<T>)
    requires |states| == |cs| && i < |cs|
    ensures Survivors(cs, states, i) + (if states[i].isAlive then [cs[i]] else []) + rest
         == Survivors(cs, states, i + 1) + rest
  {
  }

  lemma SweepCallsNext(cs: seq<ClientConn>, states: seq<ConnState>, i: nat, calls0: seq<RedisCall>,
                       pre: seq<RedisCall>, post: seq<RedisCall>)
    requires |states| == |cs| && i < |cs|
    requires pre == calls0 + SweepCalls(cs, states, i)
    requires post == pre + if states[i].isAlive then [] else Unlistens(cs[i].id, states[i].subs)
    ensures post == calls0 + SweepCalls(cs, states, i + 1)
  {
  }

  /** The facts one sweep step needs about the lists it walks. */
  lemma SweepStep(snapshot: seq<ClientConn>, states: seq<ConnState>, i: nat)
    requires Distinct(snapshot) && |states| == |snapshot| && i < |snapshot|
    ensures Survivors(snapshot, states, i) + From(snapshot, i)
         == Survivors(snapshot, states, i) + [snapshot[i]] + From(snapshot, i + 1)
    ensures Survivors(snapshot, states, i) + (if states[i].isAlive then [snapshot[i]] else []) + From(snapshot, i + 1)
         == Survivors(snapshot, states, i + 1) + From(snapshot, i + 1)
    ensures snapshot[i] !in Survivors(snapshot, states, i) && snapshot[i] !in From(snapshot, i + 1)
  {
    SurvivorsAreTheAlive(snapshot, states, i, snapshot[i]);
    if snapshot[i] in From(snapshot, i + 1) {
      FromWithin(snapshot, i + 1, snapshot[i]);
    }
  }
}
