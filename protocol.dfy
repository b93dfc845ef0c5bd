/** The wire protocol of lib/protocol.js (the generation with pending ids,
    CONFIRM and SYNCED). Encoders are functions producing the bytes they
    append to the encoder. The two readers loop over one transport frame
    until it is exhausted and dispatch on a tag; what they do to the
    provider, the storage and the relay is returned as a list of effects in
    the order the source performs them, together with whether the frame was
    read to its end (`completed`) or lib0 threw part-way through. */
module Protocol {
  import opened Text
  import opened Lib0

  const MESSAGE_UPDATE_SERVER: nat := 0
  const MESSAGE_UPDATE_CLIENT: nat := 1
  const MESSAGE_SUBSCRIBE_COLLECTION: nat := 2
  const MESSAGE_CONFIRM: nat := 3
  const MESSAGE_SYNCED_SERVER: nat := 4

  /** One local edit sent by a client: `{docid, update, pendingid}`. */
  datatype DocUpdate = DocUpdate(docid: Str, update: seq<byte>, pendingid: Str)

  /** One `(collectionid, clock)` entry of a subscription request, in the
      iteration order of the map it came from. */
  datatype Subscription = Subscription(collectionid: Str, clock: Str)

  /** The fields of one UPDATE_SERVER message. */
  datatype ServerUpdate = ServerUpdate(collectionid: Str, docid: Str, update: seq<byte>, clock: Str)

  // =====================================================================
  // encoders

  function DocUpdateFields(docUpdates: seq<DocUpdate>): seq<byte>
  {
    if docUpdates == [] then []
    else
      WriteVarBytes(docUpdates[0].pendingid) + WriteVarBytes(docUpdates[0].docid)
      + WriteVarBytes(docUpdates[0].update) + DocUpdateFields(docUpdates[1..])
  }

  /** `encodeDocumentUpdates`: tag, collection id, count, then
      `(pendingid, docid, update)` per entry. */
  function EncodeDocumentUpdates(collectionid: Str, docUpdates: seq<DocUpdate>): seq<byte>
  {
    WriteVarUint(MESSAGE_UPDATE_CLIENT) + WriteVarBytes(collectionid)
    + WriteVarUint(|docUpdates|) + DocUpdateFields(docUpdates)
  }

  function PendingIdFields(pendingids: seq<Str>): seq<byte>
  {
    if pendingids == [] then [] else WriteVarBytes(pendingids[0]) + PendingIdFields(pendingids[1..])
  }

  /** `encodeConfirmingMessage`: tag, count, then each pending id. */
  function EncodeConfirmingMessage(pendingids: seq<Str>): seq<byte>
  {
    WriteVarUint(MESSAGE_CONFIRM) + WriteVarUint(|pendingids|) + PendingIdFields(pendingids)
  }

  function SubscriptionFields(subs: seq<Subscription>): seq<byte>
  {
    if subs == [] then []
    else WriteVarBytes(subs[0].collectionid) + WriteVarBytes(subs[0].clock) + SubscriptionFields(subs[1..])
  }

  /** `clientRequestSubscriptions`: tag, count, then `(collectionid, clock)`
      per map entry. */
  function ClientRequestSubscriptions(subs: seq<Subscription>): seq<byte>
  {
    WriteVarUint(MESSAGE_SUBSCRIBE_COLLECTION) + WriteVarUint(|subs|) + SubscriptionFields(subs)
  }

  /** `serverWriteUpdate`: a one-byte tag, then the four fields. */
  function ServerWriteUpdate(collectionid: Str, docid: Str, update: seq<byte>, clock: Str): seq<byte>
  {
    WriteUint8(MESSAGE_UPDATE_SERVER) + WriteVarBytes(collectionid) + WriteVarBytes(docid)
    + WriteVarBytes(update) + WriteVarBytes(clock)
  }

  /** `serverWriteSynced`: a one-byte tag and the collection id. */
  function ServerWriteSynced(collectionid: Str): seq<byte>
  {
    WriteUint8(MESSAGE_SYNCED_SERVER) + WriteVarBytes(collectionid)
  }

  // =====================================================================
  // the client reader

  /** What `clientReadMessage` does to its provider, in order. */
  datatype ClientEffect =
    | StoreUpdate(collectionid: Str, docid: Str, update: seq<byte>, clock: Str)  // provider.storage.storeUpdate
    | SetClock(collectionid: Str, clock: Str)                                  // collection.clock = clock
    | ApplyUpdate(collectionid: Str, docid: Str, update: seq<byte>)            // Y.applyUpdateV2 on the loaded doc
    | ConfirmPending(pendingid: Str)                                           // provider.storage.confirmPendingUpdate
    | EmitSynced(collectionid: Str)                                            // provider.emit('synced')

  /** The part of the provider the reader consults: each known collection
      (`provider.collections`) with the ids of its loaded documents. */
  type ClientView = map<Str, set<Str>>

  /** One message read: its effects, the bytes after it, and whether it was
      read without running off the frame. */
  datatype ClientStep = ClientStep(effects: seq<ClientEffect>, rest: seq<byte>, ok: bool)

  /** A whole frame read: every effect performed, and whether the reader
      reached the end of the frame. */
  datatype ClientRead = ClientRead(effects: seq<ClientEffect>, completed: bool)

  function ClientThen(done: seq<ClientEffect>, next: ClientRead): ClientRead
  {
    ClientRead(done + next.effects, next.completed)
  }

  function ReadServerUpdate(s: seq<byte>): (d: Decoded<ServerUpdate>)
    ensures d.Decoded? ==> |d.rest| < |s|
  {
    match ReadVarBytes(s)
    case UnexpectedEnd => UnexpectedEnd
    case Decoded(collectionid, r1) =>
      match ReadVarBytes(r1)
      case UnexpectedEnd => UnexpectedEnd
      case Decoded(docid, r2) =>
        match ReadVarBytes(r2)
        case UnexpectedEnd => UnexpectedEnd
        case Decoded(update, r3) =>
          match ReadVarBytes(r3)
          case UnexpectedEnd => UnexpectedEnd
          case Decoded(clock, r4) => Decoded(ServerUpdate(collectionid, docid, update, clock), r4)
  }

  /** An UPDATE_SERVER message is always stored; it moves the collection's
      clock only when the collection is known, and is applied only to a
      loaded document. */
  function ServerUpdateEffects(u: ServerUpdate, view: ClientView): seq<ClientEffect>
  {
    [StoreUpdate(u.collectionid, u.docid, u.update, u.clock)]
    + if u.collectionid in view then
        [SetClock(u.collectionid, u.clock)]
        + if u.docid in view[u.collectionid] then [ApplyUpdate(u.collectionid, u.docid, u.update)] else []
      else []
  }

  /** The `while (len--)` loop of a CONFIRM message: each id is confirmed as
      soon as it is read. */
  function ReadConfirms(n: nat, s: seq<byte>): (st: ClientStep)
    ensures st.ok ==> |st.rest| <= |s|
  {
    if n == 0 then ClientStep([], s, true)
    else
      match ReadVarBytes(s)
      case UnexpectedEnd => ClientStep([], [], false)
      case Decoded(pendingid, r) =>
        var more := ReadConfirms(n - 1, r);
        ClientStep([ConfirmPending(pendingid)] + more.effects, more.rest, more.ok)
  }

  /** The fields that follow a tag, and what reading them does. An unknown
      tag is skipped and the next byte is read as a tag. */
  function ClientBody(tag: nat, r: seq<byte>, view: ClientView): (st: ClientStep)
    ensures st.ok ==> |st.rest| <= |r|
  {
    if tag == MESSAGE_UPDATE_SERVER then
      match ReadServerUpdate(r)
      case UnexpectedEnd => ClientStep([], [], false)
      case Decoded(u, r1) => ClientStep(ServerUpdateEffects(u, view), r1, true)
    else if tag == MESSAGE_CONFIRM then
      match ReadVarUint(r)
      case UnexpectedEnd => ClientStep([], [], false)
      case Decoded(n, r1) => ReadConfirms(n, r1)
    else if tag == MESSAGE_SYNCED_SERVER then
      match ReadVarBytes(r)
      case UnexpectedEnd => ClientStep([], [], false)
      case Decoded(collectionid, r1) => ClientStep([EmitSynced(collectionid)], r1, true)
    else ClientStep([], r, true)
  }

  /** One pass of the reader's loop: a var-uint tag, then its fields. */
  function ClientMessage(s: seq<byte>, view: ClientView): (st: ClientStep)
    ensures st.ok ==> |st.rest| < |s|
  {
    match ReadVarUint(s)
    case UnexpectedEnd => ClientStep([], [], false)
    case Decoded(tag, r) => ClientBody(tag, r, view)
  }

  /** The effect of `clientReadMessage` on a frame (the decoder's remaining
      bytes). */
  function ClientFrame(s: seq<byte>, view: ClientView): ClientRead
    decreases |s|
  {
    if s == [] then ClientRead([], true)
    else
      var st := ClientMessage(s, view);
      if !st.ok then ClientRead(st.effects, false) else ClientThen(st.effects, ClientFrame(st.rest, view))
  }

  /** The frame's outcome once one step has been taken. */
  function ClientContinue(st: ClientStep, view: ClientView): ClientRead
  {
    if !st.ok then ClientRead(st.effects, false) else ClientThen(st.effects, ClientFrame(st.rest, view))
  }

  lemma ClientThenAssociative(a: seq<ClientEffect>, b: seq<ClientEffect>, r: ClientRead)
    ensures ClientThen(a, ClientThen(b, r)) == ClientThen(a + b, r)
  {
    assert a + (b + r.effects) == (a + b) + r.effects;
  }

  function ConfirmsThen(done: seq<ClientEffect>, next: ClientStep): ClientStep
  {
    ClientStep(done + next.effects, next.rest, next.ok)
  }

  lemma ConfirmsThenAssociative(a: seq<ClientEffect>, b: seq<ClientEffect>, r: ClientStep)
    ensures ConfirmsThen(a, ConfirmsThen(b, r)) == ConfirmsThen(a + b, r)
  {
    assert a + (b + r.effects) == (a + b) + r.effects;
  }

  /** Reading one pending id of a CONFIRM message. */
  lemma ConfirmStep(n: nat, s: seq<byte>)
    requires n > 0
    ensures ReadVarBytes(s).UnexpectedEnd? ==> ReadConfirms(n, s) == ClientStep([], [], false)
    ensures ReadVarBytes(s).Decoded? ==>
      ReadConfirms(n, s) == ConfirmsThen([ConfirmPending(ReadVarBytes(s).value)], ReadConfirms(n - 1, ReadVarBytes(s).rest))
  {
  }

  /** The `while (len--)` loop of a CONFIRM message: each pending id is
      confirmed as soon as it is read. */
  method ReadConfirmsLoop(n: nat, s: seq<byte>) returns (effects: seq<ClientEffect>, rest: seq<byte>, ok: bool)
    ensures ClientStep(effects, rest, ok) == ReadConfirms(n, s)
  {
    var decoder := s;
    effects := [];
    var i := 0;
    assert effects + [] == effects;
    while i < n
      invariant i <= n
      invariant ReadConfirms(n, s) == ConfirmsThen(effects, ReadConfirms(n - i, decoder))
    {
      ConfirmStep(n - i, decoder);
      var pendingid := ReadVarBytes(decoder);
      if pendingid.UnexpectedEnd? {
        return effects, [], false;
      }
      ConfirmsThenAssociative(effects, [ConfirmPending(pendingid.value)], ReadConfirms(n - i - 1, pendingid.rest));
      decoder := pendingid.rest;
      effects := effects + [ConfirmPending(pendingid.value)];
      i := i + 1;
    }
    assert effects + [] == effects;
    rest, ok := decoder, true;
  }

  /** Reading the tag of the next message. */
  lemma ClientTagStep(s: seq<byte>, view: ClientView)
    requires s != []
    ensures ReadVarUint(s).UnexpectedEnd? ==> ClientFrame(s, view) == ClientRead([], false)
    ensures ReadVarUint(s).Decoded? ==>
      ClientFrame(s, view) == ClientContinue(ClientBody(ReadVarUint(s).value, ReadVarUint(s).rest, view), view)
  {
  }

  /** Reading the fields of an UPDATE_SERVER or SYNCED message, or skipping
      an unknown tag. */
  lemma ClientBodyStep(tag: nat, r: seq<byte>, view: ClientView)
    ensures tag == MESSAGE_UPDATE_SERVER && ReadServerUpdate(r).Decoded? ==>
      ClientContinue(ClientBody(tag, r, view), view)
      == ClientThen(ServerUpdateEffects(ReadServerUpdate(r).value, view), ClientFrame(ReadServerUpdate(r).rest, view))
    ensures tag == MESSAGE_SYNCED_SERVER && ReadVarBytes(r).Decoded? ==>
      ClientContinue(ClientBody(tag, r, view), view)
      == ClientThen([EmitSynced(ReadVarBytes(r).value)], ClientFrame(ReadVarBytes(r).rest, view))
    ensures tag == MESSAGE_CONFIRM && ReadVarUint(r).Decoded? ==>
      ClientBody(tag, r, view) == ReadConfirms(ReadVarUint(r).value, ReadVarUint(r).rest)
    ensures tag !in {MESSAGE_UPDATE_SERVER, MESSAGE_CONFIRM, MESSAGE_SYNCED_SERVER} ==>
      ClientContinue(ClientBody(tag, r, view), view) == ClientThen([], ClientFrame(r, view))
  {
  }

  /** `clientReadMessage(decoder, provider)`. */
  method ClientReadMessage(frame: seq<byte>, view: ClientView) returns (effects: seq<ClientEffect>, completed: bool)
    ensures ClientRead(effects, completed) == ClientFrame(frame, view)
  {
    var decoder := frame;
    effects := [];
    while decoder != []
      invariant ClientFrame(frame, view) == ClientThen(effects, ClientFrame(decoder, view))
      decreases |decoder|
    {
      ghost var start := decoder;
      ClientTagStep(decoder, view);
      var tag := ReadVarUint(decoder);
      if tag.UnexpectedEnd? {
        assert effects + [] == effects;
        return effects, false;
      }
      decoder := tag.rest;
      ClientBodyStep(tag.value, decoder, view);
      if tag.value == MESSAGE_UPDATE_SERVER {
        var u := ReadServerUpdate(decoder);
        if u.UnexpectedEnd? {
          assert effects + [] == effects;
          return effects, false;
        }
        ClientThenAssociative(effects, ServerUpdateEffects(u.value, view), ClientFrame(u.rest, view));
        decoder := u.rest;
        effects := effects + ServerUpdateEffects(u.value, view);
      } else if tag.value == MESSAGE_CONFIRM {
        var len := ReadVarUint(decoder);
        if len.UnexpectedEnd? {
          assert effects + [] == effects;
          return effects, false;
        }
        var confirmed, rest, ok := ReadConfirmsLoop(len.value, len.rest);
        if !ok {
          return effects + confirmed, false;
        }
        ClientThenAssociative(effects, confirmed, ClientFrame(rest, view));
        decoder := rest;
        effects := effects + confirmed;
      } else if tag.value == MESSAGE_SYNCED_SERVER {
        var collectionid := ReadVarBytes(decoder);
        if collectionid.UnexpectedEnd? {
          assert effects + [] == effects;
          return effects, false;
        }
        ClientThenAssociative(effects, [EmitSynced(collectionid.value)], ClientFrame(collectionid.rest, view));
        decoder := collectionid.rest;
        effects := effects + [EmitSynced(collectionid.value)];
      } else {
        ClientThenAssociative(effects, [], ClientFrame(decoder, view));
        assert effects + [] == effects;
      }
      assert |decoder| < |start|;
    }
    assert effects + [] == effects;
    completed := true;
  }

  // =====================================================================
  // the server reader

  /** What `serverReadMessage` asks of the relay and the connection. */
  datatype ServerEffect =
    | Publish(collectionid: Str, docid: Str, update: seq<byte>)  // redisConn.publish
    | Subscribe(collectionid: Str, clock: Str)                   // clientConn.subscribe
    | Reply(frame: seq<byte>)                                    // clientConn._send

  datatype ServerStep = ServerStep(effects: seq<ServerEffect>, pendingids: seq<Str>, rest: seq<byte>, ok: bool)

  /** A whole frame read: effects, the pending ids collected for
      confirmation, and whether the reader reached the end of the frame. */
  datatype ServerRead = ServerRead(effects: seq<ServerEffect>, pendingids: seq<Str>, completed: bool)

  function ServerThen(done: seq<ServerEffect>, ids: seq<Str>, next: ServerRead): ServerRead
  {
    ServerRead(done + next.effects, ids + next.pendingids, next.completed)
  }

  function ReadDocUpdate(s: seq<byte>): (d: Decoded<DocUpdate>)
    ensures d.Decoded? ==> |d.rest| < |s|
  {
    match ReadVarBytes(s)
    case UnexpectedEnd => UnexpectedEnd
    case Decoded(pendingid, r1) =>
      match ReadVarBytes(r1)
      case UnexpectedEnd => UnexpectedEnd
      case Decoded(docid, r2) =>
        match ReadVarBytes(r2)
        case UnexpectedEnd => UnexpectedEnd
        case Decoded(update, r3) => Decoded(DocUpdate(docid, update, pendingid), r3)
  }

  /** The `for` loop of an UPDATE_CLIENT message: each entry is published
      as soon as it is read and its pending id kept for the confirmation. */
  function ReadClientUpdates(collectionid: Str, n: nat, s: seq<byte>): (st: ServerStep)
    ensures st.ok ==> |st.rest| <= |s|
  {
    if n == 0 then ServerStep([], [], s, true)
    else
      match ReadDocUpdate(s)
      case UnexpectedEnd => ServerStep([], [], [], false)
      case Decoded(u, r) =>
        var more := ReadClientUpdates(collectionid, n - 1, r);
        ServerStep([Publish(collectionid, u.docid, u.update)] + more.effects, [u.pendingid] + more.pendingids, more.rest, more.ok)
  }

  function ReadSubscription(s: seq<byte>): (d: Decoded<Subscription>)
    ensures d.Decoded? ==> |d.rest| < |s|
  {
    match ReadVarBytes(s)
    case UnexpectedEnd => UnexpectedEnd
    case Decoded(collectionid, r1) =>
      match ReadVarBytes(r1)
      case UnexpectedEnd => UnexpectedEnd
      case Decoded(clock, r2) => Decoded(Subscription(collectionid, clock), r2)
  }

  /** The `while (size--)` loop of a SUBSCRIBE message. */
  function ReadSubscriptions(n: nat, s: seq<byte>): (st: ServerStep)
    ensures st.ok ==> |st.rest| <= |s|
  {
    if n == 0 then ServerStep([], [], s, true)
    else
      match ReadSubscription(s)
      case UnexpectedEnd => ServerStep([], [], [], false)
      case Decoded(sub, r) =>
        var more := ReadSubscriptions(n - 1, r);
        ServerStep([Subscribe(sub.collectionid, sub.clock)] + more.effects, more.pendingids, more.rest, more.ok)
  }

  /** The fields that follow a one-byte tag; any other tag is skipped. */
  function ServerBody(tag: byte, r: seq<byte>): (st: ServerStep)
    ensures st.ok ==> |st.rest| <= |r|
  {
    if tag == MESSAGE_UPDATE_CLIENT then
      match ReadVarBytes(r)
      case UnexpectedEnd => ServerStep([], [], [], false)
      case Decoded(collectionid, r1) =>
        match ReadVarUint(r1)
        case UnexpectedEnd => ServerStep([], [], [], false)
        case Decoded(n, r2) => ReadClientUpdates(collectionid, n, r2)
    else if tag == MESSAGE_SUBSCRIBE_COLLECTION then
      match ReadVarUint(r)
      case UnexpectedEnd => ServerStep([], [], [], false)
      case Decoded(n, r1) => ReadSubscriptions(n, r1)
    else ServerStep([], [], r, true)
  }

  /** One pass of the server reader's loop: a one-byte tag, then its fields. */
  function ServerMessage(s: seq<byte>): (st: ServerStep)
    ensures st.ok ==> |st.rest| < |s|
  {
    match ReadUint8(s)
    case UnexpectedEnd => ServerStep([], [], [], false)
    case Decoded(tag, r) => ServerBody(tag, r)
  }

  function ServerFrame(s: seq<byte>): ServerRead
    decreases |s|
  {
    if s == [] then ServerRead([], [], true)
    else
      var st := ServerMessage(s);
      if !st.ok then ServerRead(st.effects, st.pendingids, false)
      else ServerThen(st.effects, st.pendingids, ServerFrame(st.rest))
  }

  function ServerContinue(st: ServerStep): ServerRead
  {
    if !st.ok then ServerRead(st.effects, st.pendingids, false)
    else ServerThen(st.effects, st.pendingids, ServerFrame(st.rest))
  }

  /** Everything `serverReadMessage` does with one frame: the reads'
      effects, then, only if the whole frame was read and it held at least
      one update, one CONFIRM listing every pending id in arrival order,
      which goes out once every publish has resolved. */
  function ServerReply(message: seq<byte>): seq<ServerEffect>
  {
    var r := ServerFrame(message);
    r.effects + if r.completed && |r.pendingids| > 0 then [Reply(EncodeConfirmingMessage(r.pendingids))] else []
  }

  lemma ServerThenAssociative(a: seq<ServerEffect>, ia: seq<Str>, b: seq<ServerEffect>, ib: seq<Str>, r: ServerRead)
    ensures ServerThen(a, ia, ServerThen(b, ib, r)) == ServerThen(a + b, ia + ib, r)
  {
    assert a + (b + r.effects) == (a + b) + r.effects;
    assert ia + (ib + r.pendingids) == (ia + ib) + r.pendingids;
  }

  function StepThen(done: seq<ServerEffect>, ids: seq<Str>, next: ServerStep): ServerStep
  {
    ServerStep(done + next.effects, ids + next.pendingids, next.rest, next.ok)
  }

  lemma StepThenAssociative(a: seq<ServerEffect>, ia: seq<Str>, b: seq<ServerEffect>, ib: seq<Str>, r: ServerStep)
    ensures StepThen(a, ia, StepThen(b, ib, r)) == StepThen(a + b, ia + ib, r)
  {
    assert a + (b + r.effects) == (a + b) + r.effects;
    assert ia + (ib + r.pendingids) == (ia + ib) + r.pendingids;
  }

  /** Reading one entry of an UPDATE_CLIENT message. */
  lemma ClientUpdateStep(collectionid: Str, n: nat, s: seq<byte>)
    requires n > 0
    ensures ReadDocUpdate(s).UnexpectedEnd? ==> ReadClientUpdates(collectionid, n, s) == ServerStep([], [], [], false)
    ensures ReadDocUpdate(s).Decoded? ==>
      ReadClientUpdates(collectionid, n, s)
      == StepThen([Publish(collectionid, ReadDocUpdate(s).value.docid, ReadDocUpdate(s).value.update)], [ReadDocUpdate(s).value.pendingid],
                  ReadClientUpdates(collectionid, n - 1, ReadDocUpdate(s).rest))
  {
  }

  /** Reading one pair of a SUBSCRIBE message. */
  lemma SubscriptionStep(n: nat, s: seq<byte>)
    requires n > 0
    ensures ReadSubscription(s).UnexpectedEnd? ==> ReadSubscriptions(n, s) == ServerStep([], [], [], false)
    ensures ReadSubscription(s).Decoded? ==>
      ReadSubscriptions(n, s)
      == StepThen([Subscribe(ReadSubscription(s).value.collectionid, ReadSubscription(s).value.clock)], [],
                  ReadSubscriptions(n - 1, ReadSubscription(s).rest))
  {
  }

  /** The `for` loop over the entries of one UPDATE_CLIENT message: each
      entry is published as soon as it is read and its pending id kept. */
  method ReadClientUpdatesLoop(collectionid: Str, n: nat, s: seq<byte>)
    returns (effects: seq<ServerEffect>, pendingids: seq<Str>, rest: seq<byte>, ok: bool)
    ensures ServerStep(effects, pendingids, rest, ok) == ReadClientUpdates(collectionid, n, s)
  {
    var decoder := s;
    effects, pendingids := [], [];
    var i := 0;
    assert effects + [] == effects && pendingids + [] == pendingids;
    while i < n
      invariant i <= n
      invariant ReadClientUpdates(collectionid, n, s) == StepThen(effects, pendingids, ReadClientUpdates(collectionid, n - i, decoder))
    {
      ClientUpdateStep(collectionid, n - i, decoder);
      var u := ReadDocUpdate(decoder);
      if u.UnexpectedEnd? {
        return effects, pendingids, [], false;
      }
      StepThenAssociative(effects, pendingids, [Publish(collectionid, u.value.docid, u.value.update)], [u.value.pendingid],
                          ReadClientUpdates(collectionid, n - i - 1, u.rest));
      decoder := u.rest;
      effects := effects + [Publish(collectionid, u.value.docid, u.value.update)];
      pendingids := pendingids + [u.value.pendingid];
      i := i + 1;
    }
    assert effects + [] == effects && pendingids + [] == pendingids;
    rest, ok := decoder, true;
  }

  /** The `while (size--)` loop over the pairs of one SUBSCRIBE message:
      `size` turns, counted here as `i` turns done. */
  method ReadSubscriptionsLoop(n: nat, s: seq<byte>)
    returns (effects: seq<ServerEffect>, rest: seq<byte>, ok: bool)
    ensures ServerStep(effects, [], rest, ok) == ReadSubscriptions(n, s)
  {
    var decoder := s;
    effects := [];
    var i := 0;
    var none: seq<Str> := [];
    assert effects + [] == effects && none + none == none;
    while i < n
      invariant i <= n
      invariant ReadSubscriptions(n, s) == StepThen(effects, none, ReadSubscriptions(n - i, decoder))
    {
      SubscriptionStep(n - i, decoder);
      var sub := ReadSubscription(decoder);
      if sub.UnexpectedEnd? {
        return effects, [], false;
      }
      StepThenAssociative(effects, none, [Subscribe(sub.value.collectionid, sub.value.clock)], none, 
                          ReadSubscriptions(n - i - 1, sub.rest));
      decoder := sub.rest;
      effects := effects + [Subscribe(sub.value.collectionid, sub.value.clock)];
      i := i + 1;
    }
    assert effects + [] == effects;
    rest, ok := decoder, true;
  }

  /** Reading the tag of the next message. */
  lemma ServerTagStep(s: seq<byte>)
    requires s != []
    ensures ReadUint8(s).Decoded?
    ensures ServerFrame(s) == ServerContinue(ServerBody(ReadUint8(s).value, ReadUint8(s).rest))
  {
  }

  /** Reading the header of an UPDATE_CLIENT or SUBSCRIBE message, or
      skipping an unknown tag. */
  lemma ServerBodyStep(tag: byte, r: seq<byte>)
    ensures tag == MESSAGE_UPDATE_CLIENT && ReadVarBytes(r).Decoded? && ReadVarUint(ReadVarBytes(r).rest).Decoded? ==>
      var header := ReadVarUint(ReadVarBytes(r).rest);
      ServerBody(tag, r) == ReadClientUpdates(ReadVarBytes(r).value, header.value, header.rest)
    ensures tag == MESSAGE_SUBSCRIBE_COLLECTION && ReadVarUint(r).Decoded? ==>
      ServerBody(tag, r) == ReadSubscriptions(ReadVarUint(r).value, ReadVarUint(r).rest)
    ensures tag != MESSAGE_UPDATE_CLIENT && tag != MESSAGE_SUBSCRIBE_COLLECTION ==>
      ServerContinue(ServerBody(tag, r)) == ServerThen([], [], ServerFrame(r))
  {
  }

  /** `serverReadMessage(message, redisConn, clientConn)`. */
  method ServerReadMessage(message: seq<byte>) returns (effects: seq<ServerEffect>, completed: bool)
    ensures effects == ServerReply(message)
    ensures completed == ServerFrame(message).completed
  {
    var decoder := message;
    var confirming: seq<Str> := [];
    effects := [];
    while decoder != []
      invariant ServerFrame(message) == ServerThen(effects, confirming, ServerFrame(decoder))
      decreases |decoder|
    {
      ServerTagStep(decoder);
      var tag := ReadUint8(decoder);
      decoder := tag.rest;
      ServerBodyStep(tag.value, decoder);
      var stepEffects: seq<ServerEffect>, stepIds: seq<Str>, ok: bool := [], [], true;
      if tag.value == MESSAGE_UPDATE_CLIENT {
        var collectionid := ReadVarBytes(decoder);
        if collectionid.UnexpectedEnd? {
          assert effects + [] == effects && confirming + [] == confirming;
          return effects, false;
        }
        var docUpdates := ReadVarUint(collectionid.rest);
        if docUpdates.UnexpectedEnd? {
          assert effects + [] == effects && confirming + [] == confirming;
          return effects, false;
        }
        stepEffects, stepIds, decoder, ok := ReadClientUpdatesLoop(collectionid.value, docUpdates.value, docUpdates.rest);
      } else if tag.value == MESSAGE_SUBSCRIBE_COLLECTION {
        var size := ReadVarUint(decoder);
        if size.UnexpectedEnd? {
          assert effects + [] == effects && confirming + [] == confirming;
          return effects, false;
        }
        stepEffects, decoder, ok := ReadSubscriptionsLoop(size.value, size.rest);
      }
      ServerThenAssociative(effects, confirming, stepEffects, stepIds, ServerFrame(decoder));
      effects, confirming := effects + stepEffects, confirming + stepIds;
      if !ok {
        return effects, false;
      }
    }
    assert effects + [] == effects && confirming + [] == confirming;
    if |confirming| > 0 {
      effects := effects + [Reply(EncodeConfirmingMessage(confirming))];
    }
    completed := true;
  }

  // =====================================================================
  // properties

  function Publishes(collectionid: Str, docUpdates: seq<DocUpdate>): seq<ServerEffect>
  {
    seq(|docUpdates|, i requires 0 <= i < |docUpdates| => Publish(collectionid, docUpdates[i].docid, docUpdates[i].update))
  }

  function PendingIds(docUpdates: seq<DocUpdate>): seq<Str>
  {
    seq(|docUpdates|, i requires 0 <= i < |docUpdates| => docUpdates[i].pendingid)
  }

  function Subscribes(subs: seq<Subscription>): seq<ServerEffect>
  {
    seq(|subs|, i requires 0 <= i < |subs| => Subscribe(subs[i].collectionid, subs[i].clock))
  }

  function Confirms(pendingids: seq<Str>): seq<ClientEffect>
  {
    seq(|pendingids|, i requires 0 <= i < |pendingids| => ConfirmPending(pendingids[i]))
  }

  /** Reading one entry back from its three fields. */
  lemma ReadDocUpdateOf(u: DocUpdate, tail: seq<byte>)
    ensures ReadDocUpdate(WriteVarBytes(u.pendingid) + (WriteVarBytes(u.docid) + (WriteVarBytes(u.update) + tail))) == Decoded(u, tail)
  {
    VarBytesRoundTrip(u.pendingid, WriteVarBytes(u.docid) + (WriteVarBytes(u.update) + tail));
    VarBytesRoundTrip(u.docid, WriteVarBytes(u.update) + tail);
    VarBytesRoundTrip(u.update, tail);
  }

  lemma DocUpdateFieldsCons(docUpdates: seq<DocUpdate>, rest: seq<byte>)
    requires docUpdates != []
    ensures var u := docUpdates[0];
            DocUpdateFields(docUpdates) + rest
            == WriteVarBytes(u.pendingid) + (WriteVarBytes(u.docid) + (WriteVarBytes(u.update) + (DocUpdateFields(docUpdates[1..]) + rest)))
  {
  }

  lemma {:induction false} DocUpdateFieldsRoundTrip(collectionid: Str, docUpdates: seq<DocUpdate>, rest: seq<byte>)
    ensures ReadClientUpdates(collectionid, |docUpdates|, DocUpdateFields(docUpdates) + rest)
         == ServerStep(Publishes(collectionid, docUpdates), PendingIds(docUpdates), rest, true)
  {
    if docUpdates != [] {
      var s := DocUpdateFields(docUpdates) + rest;
      var tail := DocUpdateFields(docUpdates[1..]) + rest;
      assert ReadDocUpdate(s) == Decoded(docUpdates[0], tail) by {
        DocUpdateFieldsCons(docUpdates, rest);
        ReadDocUpdateOf(docUpdates[0], tail);
      }
      ClientUpdateStep(collectionid, |docUpdates|, s);
      DocUpdateFieldsRoundTrip(collectionid, docUpdates[1..], rest);
      PublishesCons(collectionid, docUpdates);
    }
  }

  lemma PublishesCons(collectionid: Str, docUpdates: seq<DocUpdate>)
    requires docUpdates != []
    ensures Publishes(collectionid, docUpdates)
         == [Publish(collectionid, docUpdates[0].docid, docUpdates[0].update)] + Publishes(collectionid, docUpdates[1..])
    ensures PendingIds(docUpdates) == [docUpdates[0].pendingid] + PendingIds(docUpdates[1..])
  {
  }

  /** The server reads an `encodeDocumentUpdates` message back as one
      publish per entry, in order, and collects every pending id, whatever
      follows it in the frame. */
  lemma DocumentUpdatesRoundTrip(collectionid: Str, docUpdates: seq<DocUpdate>, rest: seq<byte>)
    ensures ServerFrame(EncodeDocumentUpdates(collectionid, docUpdates) + rest)
         == ServerThen(Publishes(collectionid, docUpdates), PendingIds(docUpdates), ServerFrame(rest))
  {
    var fields := DocUpdateFields(docUpdates) + rest;
    var body := WriteVarBytes(collectionid) + (WriteVarUint(|docUpdates|) + fields);
    var s := EncodeDocumentUpdates(collectionid, docUpdates) + rest;
    assert ReadUint8(s) == Decoded(MESSAGE_UPDATE_CLIENT, body) by {
      SmallVarUint(MESSAGE_UPDATE_CLIENT, body);
      Regroup4(WriteVarUint(MESSAGE_UPDATE_CLIENT), WriteVarBytes(collectionid), WriteVarUint(|docUpdates|),
               DocUpdateFields(docUpdates), rest);
    }
    assert ServerBody(MESSAGE_UPDATE_CLIENT, body)
        == ServerStep(Publishes(collectionid, docUpdates), PendingIds(docUpdates), rest, true) by {
      VarBytesRoundTrip(collectionid, WriteVarUint(|docUpdates|) + fields);
      VarUintRoundTrip(|docUpdates|, fields);
      ServerBodyStep(MESSAGE_UPDATE_CLIENT, body);
      DocUpdateFieldsRoundTrip(collectionid, docUpdates, rest);
    }
    ServerTagStep(s);
  }

  /** A frame holding one `encodeDocumentUpdates` message makes the server
      publish every entry and then answer with exactly one CONFIRM naming
      all their pending ids, in order; an empty batch gets no answer. */
  lemma DocumentUpdatesAreConfirmed(collectionid: Str, docUpdates: seq<DocUpdate>)
    ensures ServerReply(EncodeDocumentUpdates(collectionid, docUpdates))
         == Publishes(collectionid, docUpdates)
            + if docUpdates == [] then [] else [Reply(EncodeConfirmingMessage(PendingIds(docUpdates)))]
  {
    DocumentUpdatesRoundTrip(collectionid, docUpdates, []);
    assert EncodeDocumentUpdates(collectionid, docUpdates) + [] == EncodeDocumentUpdates(collectionid, docUpdates);
    assert Publishes(collectionid, docUpdates) + [] == Publishes(collectionid, docUpdates);
    assert PendingIds(docUpdates) + [] == PendingIds(docUpdates);
  }

  lemma {:induction false} PendingIdFieldsRoundTrip(pendingids: seq<Str>, rest: seq<byte>)
    ensures ReadConfirms(|pendingids|, PendingIdFields(pendingids) + rest) == ClientStep(Confirms(pendingids), rest, true)
  {
    if pendingids != [] {
      var tail := PendingIdFields(pendingids[1..]) + rest;
      assert PendingIdFields(pendingids) + rest == WriteVarBytes(pendingids[0]) + tail;
      VarBytesRoundTrip(pendingids[0], tail);
      PendingIdFieldsRoundTrip(pendingids[1..], rest);
      assert Confirms(pendingids) == [ConfirmPending(pendingids[0])] + Confirms(pendingids[1..]);
    }
  }

  /** The client confirms every pending id of a CONFIRM message, in order. */
  lemma ConfirmingMessageRoundTrip(pendingids: seq<Str>, rest: seq<byte>, view: ClientView)
    ensures ClientFrame(EncodeConfirmingMessage(pendingids) + rest, view)
         == ClientThen(Confirms(pendingids), ClientFrame(rest, view))
  {
    var fields := PendingIdFields(pendingids) + rest;
    var s := EncodeConfirmingMessage(pendingids) + rest;
    assert s == WriteVarUint(MESSAGE_CONFIRM) + (WriteVarUint(|pendingids|) + fields);
    VarUintRoundTrip(MESSAGE_CONFIRM, WriteVarUint(|pendingids|) + fields);
    VarUintRoundTrip(|pendingids|, fields);
    PendingIdFieldsRoundTrip(pendingids, rest);
    assert ClientMessage(s, view) == ClientStep(Confirms(pendingids), rest, true);
  }

  /** End to end: the reply the server sends for a batch of local updates
      makes the client confirm exactly the pending ids it sent, in order. */
  lemma SentUpdatesAreConfirmed(collectionid: Str, docUpdates: seq<DocUpdate>, view: ClientView)
    requires docUpdates != []
    ensures var reply := ServerReply(EncodeDocumentUpdates(collectionid, docUpdates));
            |reply| > 0 && reply[|reply| - 1].Reply?
            && ClientFrame(reply[|reply| - 1].frame, view) == ClientRead(Confirms(PendingIds(docUpdates)), true)
  {
    var reply := ServerReply(EncodeDocumentUpdates(collectionid, docUpdates));
    var frame := EncodeConfirmingMessage(PendingIds(docUpdates));
    DocumentUpdatesAreConfirmed(collectionid, docUpdates);
    assert reply[|reply| - 1] == Reply(frame);
    ConfirmingMessageRoundTrip(PendingIds(docUpdates), [], view);
    assert frame + [] == frame;
    assert ClientFrame([], view) == ClientRead([], true);
    assert Confirms(PendingIds(docUpdates)) + [] == Confirms(PendingIds(docUpdates));
  }

  /** Reading one pair back from its two fields. */
  lemma SubscribesCons(subs: seq<Subscription>)
    requires subs != []
    ensures Subscribes(subs) == [Subscribe(subs[0].collectionid, subs[0].clock)] + Subscribes(subs[1..])
  {
  }

  lemma ReadSubscriptionOf(sub: Subscription, tail: seq<byte>)
    ensures ReadSubscription(WriteVarBytes(sub.collectionid) + (WriteVarBytes(sub.clock) + tail)) == Decoded(sub, tail)
  {
    VarBytesRoundTrip(sub.collectionid, WriteVarBytes(sub.clock) + tail);
    VarBytesRoundTrip(sub.clock, tail);
  }

  lemma SubscriptionFieldsCons(subs: seq<Subscription>, rest: seq<byte>)
    requires subs != []
    ensures SubscriptionFields(subs) + rest
         == WriteVarBytes(subs[0].collectionid) + (WriteVarBytes(subs[0].clock) + (SubscriptionFields(subs[1..]) + rest))
  {
  }

  lemma {:induction false} SubscriptionFieldsRoundTrip(subs: seq<Subscription>, rest: seq<byte>)
    ensures ReadSubscriptions(|subs|, SubscriptionFields(subs) + rest) == ServerStep(Subscribes(subs), [], rest, true)
  {
    if subs != [] {
      var s := SubscriptionFields(subs) + rest;
      var tail := SubscriptionFields(subs[1..]) + rest;
      assert ReadSubscription(s) == Decoded(subs[0], tail) by {
        SubscriptionFieldsCons(subs, rest);
        ReadSubscriptionOf(subs[0], tail);
      }
      SubscriptionStep(|subs|, s);
      SubscriptionFieldsRoundTrip(subs[1..], rest);
      SubscribesCons(subs);
    }
  }

  /** The server subscribes the connection to every pair of a subscription
      request, in order, and collects no pending id for it. */
  lemma SubscriptionsRoundTrip(subs: seq<Subscription>, rest: seq<byte>)
    ensures ServerFrame(ClientRequestSubscriptions(subs) + rest) == ServerThen(Subscribes(subs), [], ServerFrame(rest))
  {
    var fields := SubscriptionFields(subs) + rest;
    var s := ClientRequestSubscriptions(subs) + rest;
    SmallVarUint(MESSAGE_SUBSCRIBE_COLLECTION, WriteVarUint(|subs|) + fields);
    Regroup3(WriteVarUint(MESSAGE_SUBSCRIBE_COLLECTION), WriteVarUint(|subs|), SubscriptionFields(subs), rest);
    VarUintRoundTrip(|subs|, fields);
    SubscriptionFieldsRoundTrip(subs, rest);
    assert ServerMessage(s) == ServerStep(Subscribes(subs), [], rest, true);
  }

  /** An update written by the server is stored by the client, moves the
      clock of a known collection, and is applied to a loaded document. The
      server writes its tag with `writeUint8` and the client reads it with
      `readVarUint`; the two agree because the tag is below 128. */
  lemma ServerUpdateRoundTrip(collectionid: Str, docid: Str, update: seq<byte>, clock: Str, rest: seq<byte>, view: ClientView)
    ensures ClientFrame(ServerWriteUpdate(collectionid, docid, update, clock) + rest, view)
         == ClientThen(ServerUpdateEffects(ServerUpdate(collectionid, docid, update, clock), view), ClientFrame(rest, view))
  {
    var r3 := WriteVarBytes(clock) + rest;
    var r2 := WriteVarBytes(update) + r3;
    var r1 := WriteVarBytes(docid) + r2;
    var r0 := WriteVarBytes(collectionid) + r1;
    Regroup5(WriteUint8(MESSAGE_UPDATE_SERVER), WriteVarBytes(collectionid), WriteVarBytes(docid), WriteVarBytes(update),
             WriteVarBytes(clock), rest);
    SmallVarUint(MESSAGE_UPDATE_SERVER, r0);
    VarBytesRoundTrip(collectionid, r1);
    VarBytesRoundTrip(docid, r2);
    VarBytesRoundTrip(update, r3);
    VarBytesRoundTrip(clock, rest);
  }

  /** A SYNCED message makes the client emit `synced` for its collection. */
  lemma SyncedRoundTrip(collectionid: Str, rest: seq<byte>, view: ClientView)
    ensures ClientFrame(ServerWriteSynced(collectionid) + rest, view) == ClientThen([EmitSynced(collectionid)], ClientFrame(rest, view))
  {
    assert ServerWriteSynced(collectionid) + rest == WriteUint8(MESSAGE_SYNCED_SERVER) + (WriteVarBytes(collectionid) + rest);
    SmallVarUint(MESSAGE_SYNCED_SERVER, WriteVarBytes(collectionid) + rest);
    VarBytesRoundTrip(collectionid, rest);
  }

  /** The client skips a tag it does not know and goes on reading the next
      var-uint as a tag. */
  lemma ClientSkipsUnknownTag(tag: nat, rest: seq<byte>, view: ClientView)
    requires tag != MESSAGE_UPDATE_SERVER && tag != MESSAGE_CONFIRM && tag != MESSAGE_SYNCED_SERVER
    ensures ClientFrame(WriteVarUint(tag) + rest, view) == ClientFrame(rest, view)
  {
    VarUintRoundTrip(tag, rest);
    assert [] + ClientFrame(rest, view).effects == ClientFrame(rest, view).effects;
  }

  /** The server skips a one-byte tag it does not know. */
  lemma ServerSkipsUnknownTag(tag: byte, rest: seq<byte>)
    requires tag != MESSAGE_UPDATE_CLIENT && tag != MESSAGE_SUBSCRIBE_COLLECTION
    ensures ServerFrame(WriteUint8(tag) + rest) == ServerFrame(rest)
  {
    assert (WriteUint8(tag) + rest)[1..] == rest;
    assert [] + ServerFrame(rest).effects == ServerFrame(rest).effects;
    assert [] + ServerFrame(rest).pendingids == ServerFrame(rest).pendingids;
  }

  predicate NoReply(effects: seq<ServerEffect>)
  {
    forall i :: 0 <= i < |effects| ==> !effects[i].Reply?
  }

  lemma {:induction false} ReadClientUpdatesNoReply(collectionid: Str, n: nat, s: seq<byte>)
    ensures NoReply(ReadClientUpdates(collectionid, n, s).effects)
  {
    if n > 0 && ReadDocUpdate(s).Decoded? {
      ReadClientUpdatesNoReply(collectionid, n - 1, ReadDocUpdate(s).rest);
    }
  }

  lemma {:induction false} ReadSubscriptionsNoReply(n: nat, s: seq<byte>)
    ensures NoReply(ReadSubscriptions(n, s).effects)
  {
    if n > 0 && ReadSubscription(s).Decoded? {
      ReadSubscriptionsNoReply(n - 1, ReadSubscription(s).rest);
    }
  }

  lemma {:induction false} ServerFrameNoReply(s: seq<byte>)
    ensures NoReply(ServerFrame(s).effects)
    decreases |s|
  {
    if s != [] {
      var tag := ReadUint8(s);
      var r := tag.rest;
      if tag.value == MESSAGE_UPDATE_CLIENT && ReadVarBytes(r).Decoded? && ReadVarUint(ReadVarBytes(r).rest).Decoded? {
        var header := ReadVarUint(ReadVarBytes(r).rest);
        ReadClientUpdatesNoReply(ReadVarBytes(r).value, header.value, header.rest);
      } else if tag.value == MESSAGE_SUBSCRIBE_COLLECTION && ReadVarUint(r).Decoded? {
        ReadSubscriptionsNoReply(ReadVarUint(r).value, ReadVarUint(r).rest);
      }
      var st := ServerMessage(s);
      if st.ok {
        ServerFrameNoReply(st.rest);
      }
    }
  }

  /** Whatever the frame, the server answers it with at most one message,
      and only after everything it asked of the relay: a CONFIRM can only be
      the last effect. */
  lemma AtMostOneConfirm(message: seq<byte>)
    ensures var effects := ServerReply(message);
            forall i :: 0 <= i < |effects| - 1 ==> !effects[i].Reply?
  {
    ServerFrameNoReply(message);
  }

  /** A frame that holds no update, or that ends part-way through a
      message, is not answered at all. */
  lemma NoConfirmWithoutCompleteUpdates(message: seq<byte>)
    requires !ServerFrame(message).completed || ServerFrame(message).pendingids == []
    ensures NoReply(ServerReply(message))
  {
    ServerFrameNoReply(message);
    assert ServerReply(message) == ServerFrame(message).effects + [];
  }
}
