/** The wire protocol of src/protocol.js, the older generation: three tags,
    no pending ids, no confirmation and no SYNCED message. The client reads
    only server updates and applies them without storing them; the server
    reads updates and subscriptions and never answers. */
module LegacyProtocol {
  import opened Text
  import opened Lib0

  const MESSAGE_UPDATE_SERVER: nat := 0
  const MESSAGE_UPDATE_CLIENT: nat := 1
  const MESSAGE_SUBSCRIBE_COLLECTION: nat := 2

  /** One local edit sent by a client: `{docid, update}`. */
  datatype DocUpdate = DocUpdate(docid: Str, update: seq<byte>)

  datatype Subscription = Subscription(collectionid: Str, clock: Str)

  datatype ServerUpdate = ServerUpdate(collectionid: Str, docid: Str, update: seq<byte>, clock: Str)

  // =====================================================================
  // encoders

  function DocUpdateFields(docUpdates: seq<DocUpdate>): seq<byte>
  {
    if docUpdates == [] then []
    else WriteVarBytes(docUpdates[0].docid) + WriteVarBytes(docUpdates[0].update) + DocUpdateFields(docUpdates[1..])
  }

  /** `encodeDocumentUpdates`: tag, collection id, count, then
      `(docid, update)` per entry. */
  function EncodeDocumentUpdates(collectionid: Str, docUpdates: seq<DocUpdate>): seq<byte>
  {
    WriteVarUint(MESSAGE_UPDATE_CLIENT) + WriteVarBytes(collectionid)
    + WriteVarUint(|docUpdates|) + DocUpdateFields(docUpdates)
  }

  function SubscriptionFields(subs: seq<Subscription>): seq<byte>
  {
    if subs == [] then []
    else WriteVarBytes(subs[0].collectionid) + WriteVarBytes(subs[0].clock) + SubscriptionFields(subs[1..])
  }

  /** `clientRequestSubscriptions`. */
  function ClientRequestSubscriptions(subs: seq<Subscription>): seq<byte>
  {
    WriteVarUint(MESSAGE_SUBSCRIBE_COLLECTION) + WriteVarUint(|subs|) + SubscriptionFields(subs)
  }

  /** `serverWriteUpdate`. */
  function ServerWriteUpdate(collectionid: Str, docid: Str, update: seq<byte>, clock: Str): seq<byte>
  {
    WriteUint8(MESSAGE_UPDATE_SERVER) + WriteVarBytes(collectionid) + WriteVarBytes(docid)
    + WriteVarBytes(update) + WriteVarBytes(clock)
  }

  // =====================================================================
  // the client reader

  datatype ClientEffect =
    | SetClock(collectionid: Str, clock: Str)
    | ApplyUpdate(collectionid: Str, docid: Str, update: seq<byte>)

  /** Each known collection with the ids of its loaded documents. */
  type ClientView = map<Str, set<Str>>

  datatype ClientStep = ClientStep(effects: seq<ClientEffect>, rest: seq<byte>, ok: bool)

  datatype ClientRead = ClientRead(effects: seq<ClientEffect>, completed: bool)

  function ClientThen(done: seq<ClientEffect>, next: ClientRead): ClientRead
  {
    ClientRead(done + next.effects, next.completed)
  }

  function ReadServerUpdate(s: seq<byte>): (d: Decoded<ServerUpdate>)
    ensures d.Decoded? ==> |d.rest| < |s|
  {
    match ReadVarBytes(s)
    case UnexpectedEnd => UnexpectedEnd
    case Decoded(collectionid, r1) =>
      match ReadVarBytes(r1)
      case UnexpectedEnd => UnexpectedEnd
      case Decoded(docid, r2) =>
        match ReadVarBytes(r2)
        case UnexpectedEnd => UnexpectedEnd
        case Decoded(update, r3) =>
          match ReadVarBytes(r3)
          case UnexpectedEnd => UnexpectedEnd
          case Decoded(clock, r4) => Decoded(ServerUpdate(collectionid, docid, update, clock), r4)
  }

  /** An update for an unknown collection is dropped; for a known one the
      clock moves, and a loaded document gets the update. */
  function ServerUpdateEffects(u: ServerUpdate, view: ClientView): seq<ClientEffect>
  {
    if u.collectionid in view then
      [SetClock(u.collectionid, u.clock)]
      + if u.docid in view[u.collectionid] then [ApplyUpdate(u.collectionid, u.docid, u.update)] else []
    else []
  }

  /** One pass of the reader's loop; every tag but UPDATE_SERVER is
      skipped. */
  function ClientMessage(s: seq<byte>, view: ClientView): (st: ClientStep)
    ensures st.ok ==> |st.rest| < |s|
  {
    match ReadVarUint(s)
    case UnexpectedEnd => ClientStep([], [], false)
    case Decoded(tag, r) =>
      if tag == MESSAGE_UPDATE_SERVER then
        match ReadServerUpdate(r)
        case UnexpectedEnd => ClientStep([], [], false)
        case Decoded(u, r1) => ClientStep(ServerUpdateEffects(u, view), r1, true)
      else ClientStep([], r, true)
  }

  function ClientFrame(s: seq<byte>, view: ClientView): ClientRead
    decreases |s|
  {
    if s == [] then ClientRead([], true)
    else
      var st := ClientMessage(s, view);
      if !st.ok then ClientRead(st.effects, false) else ClientThen(st.effects, ClientFrame(st.rest, view))
  }

  lemma ClientThenAssociative(a: seq<ClientEffect>, b: seq<ClientEffect>, r: ClientRead)
    ensures ClientThen(a, ClientThen(b, r)) == ClientThen(a + b, r)
  {
    assert a + (b + r.effects) == (a + b) + r.effects;
  }

  /** `clientReadMessage(decoder, provider)`. */
  method ClientReadMessage(frame: seq<byte>, view: ClientView) returns (effects: seq<ClientEffect>, completed: bool)
    ensures ClientRead(effects, completed) == ClientFrame(frame, view)
  {
    var decoder := frame;
    effects := [];
    while decoder != []
      invariant ClientFrame(frame, view) == ClientThen(effects, ClientFrame(decoder, view))
      decreases |decoder|
    {
      var tag := ReadVarUint(decoder);
      if tag.UnexpectedEnd? {
        assert effects + [] == effects;
        return effects, false;
      }
      if tag.value == MESSAGE_UPDATE_SERVER {
        var u := ReadServerUpdate(tag.rest);
        if u.UnexpectedEnd? {
          assert effects + [] == effects;
          return effects, false;
        }
        ClientThenAssociative(effects, ServerUpdateEffects(u.value, view), ClientFrame(u.rest, view));
        decoder := u.rest;
        effects := effects + ServerUpdateEffects(u.value, view);
      } else {
        ClientThenAssociative(effects, [], ClientFrame(tag.rest, view));
        assert effects + [] == effects;
        decoder := tag.rest;
      }
    }
    assert effects + [] == effects;
    completed := true;
  }

  // =====================================================================
  // the server reader

  datatype ServerEffect =
    | Publish(collectionid: Str, docid: Str, update: seq<byte>)
    | Subscribe(collectionid: Str, clock: Str)

  datatype ServerStep = ServerStep(effects: seq<ServerEffect>, rest: seq<byte>, ok: bool)

  datatype ServerRead = ServerRead(effects: seq<ServerEffect>, completed: bool)

  function ServerThen(done: seq<ServerEffect>, next: ServerRead): ServerRead
  {
    ServerRead(done + next.effects, next.completed)
  }

  function StepThen(done: seq<ServerEffect>, next: ServerStep): ServerStep
  {
    ServerStep(done + next.effects, next.rest, next.ok)
  }

  function ReadDocUpdate(s: seq<byte>): (d: Decoded<DocUpdate>)
    ensures d.Decoded? ==> |d.rest| < |s|
  {
    match ReadVarBytes(s)
    case UnexpectedEnd => UnexpectedEnd
    case Decoded(docid, r1) =>
      match ReadVarBytes(r1)
      case UnexpectedEnd => UnexpectedEnd
      case Decoded(update, r2) => Decoded(DocUpdate(docid, update), r2)
  }

  function ReadClientUpdates(collectionid: Str, n: nat, s: seq<byte>): (st: ServerStep)
    ensures st.ok ==> |st.rest| <= |s|
  {
    if n == 0 then ServerStep([], s, true)
    else
      match ReadDocUpdate(s)
      case UnexpectedEnd => ServerStep([], [], false)
      case Decoded(u, r) => StepThen([Publish(collectionid, u.docid, u.update)], ReadClientUpdates(collectionid, n - 1, r))
  }

  function ReadSubscription(s: seq<byte>): (d: Decoded<Subscription>)
    ensures d.Decoded? ==> |d.rest| < |s|
  {
    match ReadVarBytes(s)
    case UnexpectedEnd => UnexpectedEnd
    case Decoded(collectionid, r1) =>
      match ReadVarBytes(r1)
      case UnexpectedEnd => UnexpectedEnd
      case Decoded(clock, r2) => Decoded(Subscription(collectionid, clock), r2)
  }

  function ReadSubscriptions(n: nat, s: seq<byte>): (st: ServerStep)
    ensures st.ok ==> |st.rest| <= |s|
  {
    if n == 0 then ServerStep([], s, true)
    else
      match ReadSubscription(s)
      case UnexpectedEnd => ServerStep([], [], false)
      case Decoded(sub, r) => StepThen([Subscribe(sub.collectionid, sub.clock)], ReadSubscriptions(n - 1, r))
  }

  function ServerBody(tag: byte, r: seq<byte>): (st: ServerStep)
    ensures st.ok ==> |st.rest| <= |r|
  {
    if tag == MESSAGE_UPDATE_CLIENT then
      match ReadVarBytes(r)
      case UnexpectedEnd => ServerStep([], [], false)
      case Decoded(collectionid, r1) =>
        match ReadVarUint(r1)
        case UnexpectedEnd => ServerStep([], [], false)
        case Decoded(n, r2) => ReadClientUpdates(collectionid, n, r2)
    else if tag == MESSAGE_SUBSCRIBE_COLLECTION then
      match ReadVarUint(r)
      case UnexpectedEnd => ServerStep([], [], false)
      case Decoded(n, r1) => ReadSubscriptions(n, r1)
    else ServerStep([], r, true)
  }

  function ServerMessage(s: seq<byte>): (st: ServerStep)
    ensures st.ok ==> |st.rest| < |s|
  {
    match ReadUint8(s)
    case UnexpectedEnd => ServerStep([], [], false)
    case Decoded(tag, r) => ServerBody(tag, r)
  }

  /** Everything `serverReadMessage` does with one frame. */
  function ServerFrame(s: seq<byte>): ServerRead
    decreases |s|
  {
    if s == [] then ServerRead([], true)
    else
      var st := ServerMessage(s);
      if !st.ok then ServerRead(st.effects, false) else ServerThen(st.effects, ServerFrame(st.rest))
  }

  function ServerContinue(st: ServerStep): ServerRead
  {
    if !st.ok then ServerRead(st.effects, false) else ServerThen(st.effects, ServerFrame(st.rest))
  }

  lemma ServerThenAssociative(a: seq<ServerEffect>, b: seq<ServerEffect>, r: ServerRead)
    ensures ServerThen(a, ServerThen(b, r)) == ServerThen(a + b, r)
  {
    assert a + (b + r.effects) == (a + b) + r.effects;
  }

  lemma StepThenAssociative(a: seq<ServerEffect>, b: seq<ServerEffect>, r: ServerStep)
    ensures StepThen(a, StepThen(b, r)) == StepThen(a + b, r)
  {
    assert a + (b + r.effects) == (a + b) + r.effects;
  }

  /** The `for` loop over the entries of one UPDATE_CLIENT message. */
  method ReadClientUpdatesLoop(collectionid: Str, n: nat, s: seq<byte>)
    returns (effects: seq<ServerEffect>, rest: seq<byte>, ok: bool)
    ensures ServerStep(effects, rest, ok) == ReadClientUpdates(collectionid, n, s)
  {
    var decoder := s;
    effects := [];
    var i := 0;
    assert effects + [] == effects;
    while i < n
      invariant i <= n
      invariant ReadClientUpdates(collectionid, n, s) == StepThen(effects, ReadClientUpdates(collectionid, n - i, decoder))
    {
      ClientUpdateStep(collectionid, n - i, decoder);
      var u := ReadDocUpdate(decoder);
      if u.UnexpectedEnd? {
        return effects, [], false;
      }
      StepThenAssociative(effects, [Publish(collectionid, u.value.docid, u.value.update)], ReadClientUpdates(collectionid, n - i - 1, u.rest));
      decoder := u.rest;
      effects := effects + [Publish(collectionid, u.value.docid, u.value.update)];
      i := i + 1;
    }
    assert effects + [] == effects;
    rest, ok := decoder, true;
  }

  /** The `while (size--)` loop over the pairs of one SUBSCRIBE message:
      `size` turns, counted here as `i` turns done. */
  method ReadSubscriptionsLoop(n: nat, s: seq<byte>)
    returns (effects: seq<ServerEffect>, rest: seq<byte>, ok: bool)
    ensures ServerStep(effects, rest, ok) == ReadSubscriptions(n, s)
  {
    var decoder := s;
    effects := [];
    var i := 0;
    assert effects + [] == effects;
    while i < n
      invariant i <= n
      invariant ReadSubscriptions(n, s) == StepThen(effects, ReadSubscriptions(n - i, decoder))
    {
      SubscriptionStep(n - i, decoder);
      var sub := ReadSubscription(decoder);
      if sub.UnexpectedEnd? {
        return effects, [], false;
      }
      StepThenAssociative(effects, [Subscribe(sub.value.collectionid, sub.value.clock)], 
                          ReadSubscriptions(n - i - 1, sub.rest));
      decoder := sub.rest;
      effects := effects + [Subscribe(sub.value.collectionid, sub.value.clock)];
      i := i + 1;
    }
    assert effects + [] == effects;
    rest, ok := decoder, true;
  }

  /** `serverReadMessage(message, redisConn, clientConn)`. */
  method ServerReadMessage(message: seq<byte>) returns (effects: seq<ServerEffect>, completed: bool)
    ensures ServerRead(effects, completed) == ServerFrame(message)
  {
    var decoder := message;
    effects := [];
    while decoder != []
      invariant ServerFrame(message) == ServerThen(effects, ServerFrame(decoder))
      decreases |decoder|
    {
      assert ServerFrame(decoder) == ServerContinue(ServerMessage(decoder));
      var tag := ReadUint8(decoder);
      decoder := tag.rest;
      var stepEffects: seq<ServerEffect>, ok: bool := [], true;
      if tag.value == MESSAGE_UPDATE_CLIENT {
        var collectionid := ReadVarBytes(decoder);
        if collectionid.UnexpectedEnd? {
          assert effects + [] == effects;
          return effects, false;
        }
        var docUpdates := ReadVarUint(collectionid.rest);
        if docUpdates.UnexpectedEnd? {
          assert effects + [] == effects;
          return effects, false;
        }
        stepEffects, decoder, ok := ReadClientUpdatesLoop(collectionid.value, docUpdates.value, docUpdates.rest);
      } else if tag.value == MESSAGE_SUBSCRIBE_COLLECTION {
        var size := ReadVarUint(decoder);
        if size.UnexpectedEnd? {
          assert effects + [] == effects;
          return effects, false;
        }
        stepEffects, decoder, ok := ReadSubscriptionsLoop(size.value, size.rest);
      }
      ServerThenAssociative(effects, stepEffects, ServerFrame(decoder));
      effects := effects + stepEffects;
      if !ok {
        return effects, false;
      }
    }
    assert effects + [] == effects;
    completed := true;
  }

  // =====================================================================
  // properties

  function Publishes(collectionid: Str, docUpdates: seq<DocUpdate>): seq<ServerEffect>
  {
    seq(|docUpdates|, i requires 0 <= i < |docUpdates| => Publish(collectionid, docUpdates[i].docid, docUpdates[i].update))
  }

  function Subscribes(subs: seq<Subscription>): seq<ServerEffect>
  {
    seq(|subs|, i requires 0 <= i < |subs| => Subscribe(subs[i].collectionid, subs[i].clock))
  }

  lemma PublishesCons(collectionid: Str, docUpdates: seq<DocUpdate>)
    requires docUpdates != []
    ensures Publishes(collectionid, docUpdates)
         == [Publish(collectionid, docUpdates[0].docid, docUpdates[0].update)] + Publishes(collectionid, docUpdates[1..])
  {
  }

  lemma SubscribesCons(subs: seq<Subscription>)
    requires subs != []
    ensures Subscribes(subs) == [Subscribe(subs[0].collectionid, subs[0].clock)] + Subscribes(subs[1..])
  {
  }

  /** Reading one entry of an UPDATE_CLIENT message. */
  lemma ClientUpdateStep(collectionid: Str, n: nat, s: seq<byte>)
    requires n > 0
    ensures ReadDocUpdate(s).UnexpectedEnd? ==> ReadClientUpdates(collectionid, n, s) == ServerStep([], [], false)
    ensures ReadDocUpdate(s).Decoded? ==>
      ReadClientUpdates(collectionid, n, s)
      == StepThen([Publish(collectionid, ReadDocUpdate(s).value.docid, ReadDocUpdate(s).value.update)],
                  ReadClientUpdates(collectionid, n - 1, ReadDocUpdate(s).rest))
  {
  }

  /** Reading one pair of a SUBSCRIBE message. */
  lemma SubscriptionStep(n: nat, s: seq<byte>)
    requires n > 0
    ensures ReadSubscription(s).UnexpectedEnd? ==> ReadSubscriptions(n, s) == ServerStep([], [], false)
    ensures ReadSubscription(s).Decoded? ==>
      ReadSubscriptions(n, s)
      == StepThen([Subscribe(ReadSubscription(s).value.collectionid, ReadSubscription(s).value.clock)],
                  ReadSubscriptions(n - 1, ReadSubscription(s).rest))
  {
  }

  /** Reading one entry back from its two fields. */
  lemma ReadDocUpdateOf(u: DocUpdate, tail: seq<byte>)
    ensures ReadDocUpdate(WriteVarBytes(u.docid) + (WriteVarBytes(u.update) + tail)) == Decoded(u, tail)
  {
    VarBytesRoundTrip(u.docid, WriteVarBytes(u.update) + tail);
    VarBytesRoundTrip(u.update, tail);
  }

  lemma DocUpdateFieldsCons(docUpdates: seq<DocUpdate>, rest: seq<byte>)
    requires docUpdates != []
    ensures DocUpdateFields(docUpdates) + rest
         == WriteVarBytes(docUpdates[0].docid) + (WriteVarBytes(docUpdates[0].update) + (DocUpdateFields(docUpdates[1..]) + rest))
  {
  }

  lemma {:induction false} DocUpdateFieldsRoundTrip(collectionid: Str, docUpdates: seq<DocUpdate>, rest: seq<byte>)
    ensures ReadClientUpdates(collectionid, |docUpdates|, DocUpdateFields(docUpdates) + rest)
         == ServerStep(Publishes(collectionid, docUpdates), rest, true)
  {
    if docUpdates != [] {
      var u := docUpdates[0];
      var s := DocUpdateFields(docUpdates) + rest;
      var tail := DocUpdateFields(docUpdates[1..]) + rest;
      assert ReadDocUpdate(s) == Decoded(u, tail) by {
        DocUpdateFieldsCons(docUpdates, rest);
        ReadDocUpdateOf(u, tail);
      }
      ClientUpdateStep(collectionid, |docUpdates|, s);
      DocUpdateFieldsRoundTrip(collectionid, docUpdates[1..], rest);
      PublishesCons(collectionid, docUpdates);
    }
  }

  /** The server publishes every entry of an `encodeDocumentUpdates`
      message, in order, whatever follows it. */
  lemma DocumentUpdatesRoundTrip(collectionid: Str, docUpdates: seq<DocUpdate>, rest: seq<byte>)
    ensures ServerFrame(EncodeDocumentUpdates(collectionid, docUpdates) + rest)
         == ServerThen(Publishes(collectionid, docUpdates), ServerFrame(rest))
  {
    var fields := DocUpdateFields(docUpdates) + rest;
    var body := WriteVarBytes(collectionid) + (WriteVarUint(|docUpdates|) + fields);
    var s := EncodeDocumentUpdates(collectionid, docUpdates) + rest;
    assert ReadUint8(s) == Decoded(MESSAGE_UPDATE_CLIENT, body) by {
      SmallVarUint(MESSAGE_UPDATE_CLIENT, body);
      Regroup4(WriteVarUint(MESSAGE_UPDATE_CLIENT), WriteVarBytes(collectionid), WriteVarUint(|docUpdates|),
               DocUpdateFields(docUpdates), rest);
    }
    assert ServerBody(MESSAGE_UPDATE_CLIENT, body) == ServerStep(Publishes(collectionid, docUpdates), rest, true) by {
      VarBytesRoundTrip(collectionid, WriteVarUint(|docUpdates|) + fields);
      VarUintRoundTrip(|docUpdates|, fields);
      DocUpdateFieldsRoundTrip(collectionid, docUpdates, rest);
    }
    assert ServerMessage(s) == ServerBody(MESSAGE_UPDATE_CLIENT, body);
  }

  /** Reading one pair back from its two fields. */
  lemma ReadSubscriptionOf(sub: Subscription, tail: seq<byte>)
    ensures ReadSubscription(WriteVarBytes(sub.collectionid) + (WriteVarBytes(sub.clock) + tail)) == Decoded(sub, tail)
  {
    VarBytesRoundTrip(sub.collectionid, WriteVarBytes(sub.clock) + tail);
    VarBytesRoundTrip(sub.clock, tail);
  }

  lemma SubscriptionFieldsCons(subs: seq<Subscription>, rest: seq<byte>)
    requires subs != []
    ensures SubscriptionFields(subs) + rest
         == WriteVarBytes(subs[0].collectionid) + (WriteVarBytes(subs[0].clock) + (SubscriptionFields(subs[1..]) + rest))
  {
  }

  lemma {:induction false} SubscriptionFieldsRoundTrip(subs: seq<Subscription>, rest: seq<byte>)
    ensures ReadSubscriptions(|subs|, SubscriptionFields(subs) + rest) == ServerStep(Subscribes(subs), rest, true)
  {
    if subs != [] {
      var s := SubscriptionFields(subs) + rest;
      var tail := SubscriptionFields(subs[1..]) + rest;
      assert ReadSubscription(s) == Decoded(subs[0], tail) by {
        SubscriptionFieldsCons(subs, rest);
        ReadSubscriptionOf(subs[0], tail);
      }
      SubscriptionStep(|subs|, s);
      SubscriptionFieldsRoundTrip(subs[1..], rest);
      SubscribesCons(subs);
    }
  }

  /** The server subscribes the connection to every requested pair. */
  lemma SubscriptionsRoundTrip(subs: seq<Subscription>, rest: seq<byte>)
    ensures ServerFrame(ClientRequestSubscriptions(subs) + rest) == ServerThen(Subscribes(subs), ServerFrame(rest))
  {
    var fields := SubscriptionFields(subs) + rest;
    var s := ClientRequestSubscriptions(subs) + rest;
    SmallVarUint(MESSAGE_SUBSCRIBE_COLLECTION, WriteVarUint(|subs|) + fields);
    Regroup3(WriteVarUint(MESSAGE_SUBSCRIBE_COLLECTION), WriteVarUint(|subs|), SubscriptionFields(subs), rest);
    VarUintRoundTrip(|subs|, fields);
    SubscriptionFieldsRoundTrip(subs, rest);
    assert ServerMessage(s) == ServerStep(Subscribes(subs), rest, true);
  }

  /** An update written by the server moves a known collection's clock and
      reaches a loaded document. */
  lemma ServerUpdateRoundTrip(collectionid: Str, docid: Str, update: seq<byte>, clock: Str, rest: seq<byte>, view: ClientView)
    ensures ClientFrame(ServerWriteUpdate(collectionid, docid, update, clock) + rest, view)
         == ClientThen(ServerUpdateEffects(ServerUpdate(collectionid, docid, update, clock), view), ClientFrame(rest, view))
  {
    var r3 := WriteVarBytes(clock) + rest;
    var r2 := WriteVarBytes(update) + r3;
    var r1 := WriteVarBytes(docid) + r2;
    var r0 := WriteVarBytes(collectionid) + r1;
    Regroup5(WriteUint8(MESSAGE_UPDATE_SERVER), WriteVarBytes(collectionid), WriteVarBytes(docid), WriteVarBytes(update),
             WriteVarBytes(clock), rest);
    SmallVarUint(MESSAGE_UPDATE_SERVER, r0);
    VarBytesRoundTrip(collectionid, r1);
    VarBytesRoundTrip(docid, r2);
    VarBytesRoundTrip(update, r3);
    VarBytesRoundTrip(clock, rest);
  }

  /** The client skips every tag but UPDATE_SERVER, including the CONFIRM
      and SYNCED tags of the newer protocol. */
  lemma ClientSkipsUnknownTag(tag: nat, rest: seq<byte>, view: ClientView)
    requires tag != MESSAGE_UPDATE_SERVER
    ensures ClientFrame(WriteVarUint(tag) + rest, view) == ClientFrame(rest, view)
  {
    VarUintRoundTrip(tag, rest);
    assert [] + ClientFrame(rest, view).effects == ClientFrame(rest, view).effects;
  }

  /** The server skips a one-byte tag it does not know. */
  lemma ServerSkipsUnknownTag(tag: byte, rest: seq<byte>)
    requires tag != MESSAGE_UPDATE_CLIENT && tag != MESSAGE_SUBSCRIBE_COLLECTION
    ensures ServerFrame(WriteUint8(tag) + rest) == ServerFrame(rest)
  {
    assert (WriteUint8(tag) + rest)[1..] == rest;
    assert [] + ServerFrame(rest).effects == ServerFrame(rest).effects;
  }
}
