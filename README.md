# y-redis in Dafny

A model of y-redis, a system that relays Yjs document updates between
browsers through Redis streams, together with proofs about that model. It
covers both generations of the code.

- **The newer generation.** It covers `RedisWebsocketProvider` in
  client/y-redis-client.js, the in-memory part of `IndexeddbStorage`
  (lib/storage-indexeddb.js), a store the provider can be given, the wire
  protocol of lib/protocol.js, the clock helpers of lib/utils.js, the
  stream relay `RedisConn` of server/redis-helpers.js, and the websocket
  server of server/websocket-server.js.
- **The older generation.** It covers the provider of
  src/websocket-client.js, the protocol of src/protocol.js, the relay of
  src/redis-helpers.js and the server of bin/websocket-server.js, and the
  `MemoryStorage` of src/storage-memory.js (module `MemoryStore`). The
  newer provider imports a different `MemoryStorage`, from
  lib/storage-memory.js, which is not part of this model.

Each generation's layers:

- **Wire protocol** (modules `Lib0`, `Protocol`, `LegacyProtocol`).
  - Frames are byte sequences, built from lib0's unsigned LEB128 var-ints
    and length-prefixed strings.
  - The encoders are functions.
  - The two readers (`clientReadMessage`, `serverReadMessage`) are
    `while`-loop methods. Each is proved equal to a recursive function that
    gives the list of effects a frame has.
  - Round-trip lemmas tie every encoder to its reader. They also cover the
    reader's handling of truncated frames and of unknown tags.
- **Clocks** (module `Clock`). Redis stream ids are `"<seq>-<ctr>"`.
  - `parseTimestamp` is modelled on JavaScript's `split` and
    `Number.parseInt`, including `NaN`.
  - `compareTimestamps` is proved to be the lexicographic order on
    well-formed clocks.
  - Outside well-formed clocks the comparison is not even reflexive.
- **Relay** (modules `Streams`, `Relay`, `LegacyRelay`).
  - The registry of collections maps each one to its read cursor and its
    subscribers.
  - The staging map holds new subscriptions until the next poll.
  - One XREAD batch becomes one notification per subscriber and document.
  - The XTRIM bound.
  - Redis is not executed: a batch XREAD returns is an input, and the
    writes are recorded calls.
- **Server** (modules `WebsocketServer`, `LegacyWebsocketServer`).
  - One `ClientConn` object per socket.
  - The `clients` set.
  - The newer server's ping sweep, which drops connections found not alive.
  - Calls on the shared `redisConn` are recorded in order. A socket is the
    list of frames handed to its `send`.
- **Clients** (modules `Client`, `LegacyClient`, `OrderedMaps`).
  - The provider is a class with the connection state machine
    (`setupWS`, `onopen`, `onclose`, `onmessage`, the watchdog, `connect`,
    `disconnect`), the message cache, the collections and the documents.
  - A JavaScript `Map` is an ordered map, because its insertion order
    decides the order of frames.
  - Socket events and timers are methods the environment calls.
- **Client stores** (modules `UpdateLists`, `MemoryStore`, `IndexeddbStore`).
  - Per-document update lists sorted by clock in string order.
  - `getDocument`, including what `slice(-1)` gives when no entry
    qualifies.
  - `iterateCollection`.
  - The pending-update queue, with its counter ids.
  - The merge of a clock range into one update.

## Model

| member | source | states |
|---|---|---|
| Lib0.WriteVarUintShape | lib/protocol.js:22-24 | every byte of a var-uint except the last has the continuation bit set, and the last does not |
| Lib0.VarUintRoundTrip | lib/protocol.js:22-24 | reading a written var-uint gives back the number and the bytes after it, whatever follows |
| Lib0.VarBytesRoundTrip | lib/protocol.js:23-28 | reading a written string or byte array gives back the data and the bytes after it |
| Lib0.SmallVarUint | lib/protocol.js:68 | a tag below 128 is the same single byte whether written by `writeUint8` or `writeVarUint`, and either reader reads it back |
| Text.EraseExactly | server/websocket-server.js:72 | `Set.delete` keeps every other element, drops exactly the deleted one, and keeps the elements distinct |
| Text.Split | lib/utils.js:22 | `split` gives at least one piece, no piece holds the separator, and joining the pieces gives back the string |
| Text.SplitNoSeparator | lib/utils.js:22-25 | a string without the separator splits into itself alone |
| Text.SplitAfterFirst | lib/utils.js:22 | splitting at the first separator gives the prefix, then the split of the rest |
| Text.SplitJoin | lib/utils.js:22 | splitting a join of separator-free pieces gives back the pieces |
| Text.LeadingDigits | lib/utils.js:22 | `parseInt` reads the longest prefix of digits: a prefix of the input, all digits, followed by a non-digit or the end |
| Text.Decimal | server/redis-helpers.js:210 | a number written in decimal is non-empty, all digits, has no leading zero, and denotes that number |
| Text.DecimalInjective | lib/storage-indexeddb.js:159 | distinct counter values give distinct decimal strings |
| Text.LeadingDigitsOfDigits | lib/utils.js:22 | the leading digits of digits followed by a non-digit are exactly those digits |
| Text.ParseIntDigits | lib/utils.js:22 | `parseInt` of digits followed by a non-digit is their value |
| Text.ParseIntDecimal | lib/utils.js:22 | `parseInt` reads back a decimal number |
| Text.StrLtIrreflexive | src/storage-memory.js:12 | string `<` is irreflexive |
| Text.StrLtTotal | src/storage-memory.js:12 | of two distinct strings one is `<` the other |
| Text.StrLtAsymmetric | src/storage-memory.js:12 | string `<` is asymmetric |
| Text.StrLtTransitive | src/storage-memory.js:12 | string `<` is transitive |
| Text.StrLeTotal | src/storage-memory.js:12 | string `<=` is total |
| Text.StrLeTransitive | src/storage-memory.js:12 | string `<=` is transitive |
| OrderedMaps.Empty | client/y-redis-client.js:98 | `new Map()` is well formed and empty |
| OrderedMaps.Set | client/y-redis-client.js:195 | `set` stores the value under the key, keeps the map well formed, and leaves a present key in its place |
| OrderedMaps.SetIfUndefined | client/y-redis-client.js:132 | `setIfUndefined` adds the key with the value only when it is missing, and leaves every other key as it was |
| OrderedMaps.Delete | client/y-redis-client.js:196 | `delete` removes exactly that key and keeps the map well formed |
| Clock.ParseTimestamp | lib/utils.js:21-27 | a clock without `-` parses with counter 0 |
| Clock.SplitFormat | lib/utils.js:22 | `"a-b"` splits into the decimal texts of `a` and `b` |
| Clock.ParseFormat | lib/utils.js:21-27 | `parseTimestamp("a-b")` is `(a, b)`, and `"a-b"` is a well-formed clock with that value |
| Clock.ParseBare | lib/utils.js:23-25 | `parseTimestamp("a")` is `(a, 0)` |
| Clock.ParseWellFormed | lib/utils.js:21-27 | every well-formed clock parses to the pair of numbers it denotes |
| Clock.CompareIsLexicographic | lib/utils.js:34-38 | on well-formed clocks `compareTimestamps` is exactly lexicographic `>=` on the pairs |
| Clock.CompareReflexive | lib/utils.js:34-38 | every well-formed clock compares `>=` to itself |
| Clock.CompareTotal | lib/utils.js:34-38 | of two well-formed clocks one compares `>=` to the other |
| Clock.CompareTransitive | lib/utils.js:34-38 | `compareTimestamps` is transitive on well-formed clocks |
| Clock.CompareAntisymmetricUpToParsing | lib/utils.js:34-38 | two well-formed clocks compare `>=` both ways exactly when they denote the same pair |
| Clock.FiveEquivalentToFiveDashZero | lib/utils.js:23-25 | `"5"` and `"5-0"` are different strings that compare equal |
| Clock.ZeroIsMinimum | lib/utils.js:34-38 | every well-formed clock compares `>=` to `"0"` |
| Clock.NotReflexiveOnGarbage | lib/utils.js:34-38 | every clock whose sequence or counter part parses to `NaN` does not compare `>=` to itself |
| Clock.ReflexiveIffNumeric | lib/utils.js:34-38 | a clock compares `>=` to itself exactly when both its sequence and its counter parse to numbers |
| Clock.GarbageClocks | lib/utils.js:34-38 | `"x"` (sequence `NaN`) and `"1-x"` (counter `NaN`) each compare false to themselves |
| Protocol.ClientReadMessage | lib/protocol.js:89-127 | the client reader's loop has exactly the effects and the completion of the recursive frame reading |
| Protocol.ReadConfirmsLoop | lib/protocol.js:111-116 | the `while (len--)` loop confirms each pending id as it reads it, as the recursive reading does |
| Protocol.ReadClientUpdatesLoop | lib/protocol.js:176-182 | the `for` loop publishes each entry as it reads it and keeps its pending id, as the recursive reading does |
| Protocol.ReadSubscriptionsLoop | lib/protocol.js:186-192 | the `while (size--)` loop subscribes to each pair as it reads it, as the recursive reading does |
| Protocol.ServerReadMessage | lib/protocol.js:165-202 | the server reader's loop publishes, subscribes and confirms exactly as the recursive frame reading does |
| Protocol.DocumentUpdatesRoundTrip | lib/protocol.js:20-31 | the server reads an `encodeDocumentUpdates` message back as one publish per entry, in order, with the pending ids in order, and goes on with what follows |
| Protocol.DocumentUpdatesAreConfirmed | lib/protocol.js:197-201 | a frame holding one update message publishes every entry and schedules one CONFIRM listing all its pending ids in order; an empty batch schedules none |
| Protocol.DocUpdateFieldsRoundTrip | lib/protocol.js:25-29 | the entries written by the encoder are read back one by one |
| Protocol.PendingIdFieldsRoundTrip | lib/protocol.js:41-43 | the pending ids written by the confirmation encoder are read back as confirmations, in order |
| Protocol.ConfirmingMessageRoundTrip | lib/protocol.js:37-45 | the client confirms every pending id of a CONFIRM message, in order |
| Protocol.SentUpdatesAreConfirmed | lib/protocol.js:197-201 | end to end, the server's reply to a batch of local updates makes the client confirm exactly the pending ids it sent, in order |
| Protocol.SubscriptionFieldsRoundTrip | lib/protocol.js:54-57 | the pairs written by the subscription encoder are read back one by one |
| Protocol.SubscriptionsRoundTrip | lib/protocol.js:51-58 | the server subscribes to every pair of a subscription request, in order, and collects no pending id for it |
| Protocol.ServerUpdateRoundTrip | lib/protocol.js:67-73 | an update written by the server is stored by the client, moves a known collection's clock, and is applied to a loaded document |
| Protocol.SyncedRoundTrip | lib/protocol.js:79-82 | a SYNCED message makes the client emit `synced` for its collection |
| Protocol.ClientSkipsUnknownTag | lib/protocol.js:92-124 | the client skips an unknown tag and reads the next var-uint as a tag |
| Protocol.ServerSkipsUnknownTag | lib/protocol.js:172-195 | the server skips an unknown one-byte tag |
| Protocol.ReadClientUpdatesNoReply | lib/protocol.js:176-182 | reading update entries never sends anything back |
| Protocol.ReadSubscriptionsNoReply | lib/protocol.js:186-192 | reading subscriptions never sends anything back |
| Protocol.ServerFrameNoReply | lib/protocol.js:171-196 | the reading loop itself sends nothing back |
| Protocol.AtMostOneConfirm | lib/protocol.js:197-201 | whatever the frame, the server answers with at most one message, and only as the last effect |
| Protocol.NoConfirmWithoutCompleteUpdates | lib/protocol.js:197-201 | a frame that holds no update, or ends part-way through a message, is not answered |
| LegacyProtocol.ClientReadMessage | src/protocol.js:62-82 | the client reader's loop has exactly the effects and completion of the recursive frame reading |
| LegacyProtocol.ReadClientUpdatesLoop | src/protocol.js:96-101 | the `for` loop publishes each entry as it reads it, as the recursive reading does |
| LegacyProtocol.ReadSubscriptionsLoop | src/protocol.js:105-111 | the `while (size--)` loop subscribes to each pair as it reads it, as the recursive reading does |
| LegacyProtocol.ServerReadMessage | src/protocol.js:89-116 | the server reader's loop publishes and subscribes exactly as the recursive frame reading does |
| LegacyProtocol.DocUpdateFieldsRoundTrip | src/protocol.js:23-26 | the entries written by the encoder are read back one by one |
| LegacyProtocol.DocumentUpdatesRoundTrip | src/protocol.js:18-28 | the server reads an `encodeDocumentUpdates` message back as one publish per entry, in order |
| LegacyProtocol.SubscriptionFieldsRoundTrip | src/protocol.js:37-40 | the pairs written by the subscription encoder are read back one by one |
| LegacyProtocol.SubscriptionsRoundTrip | src/protocol.js:34-41 | the server subscribes to every pair of a subscription request, in order |
| LegacyProtocol.ServerUpdateRoundTrip | src/protocol.js:50-56 | an update written by the server moves a known collection's clock and is applied to a loaded document, and nothing is stored |
| LegacyProtocol.ClientSkipsUnknownTag | src/protocol.js:64-80 | the client skips every tag but UPDATE_SERVER |
| LegacyProtocol.ServerSkipsUnknownTag | src/protocol.js:92-114 | the server skips an unknown one-byte tag |
| Streams.DocidsDistinct | server/redis-helpers.js:46-54 | the documents of one stream are grouped under distinct ids |
| Streams.DocidsComplete | server/redis-helpers.js:47-54 | a document id is grouped exactly when some entry carries it |
| Streams.UpdatesOfAbsent | server/redis-helpers.js:52 | a document with no entry has no updates |
| Streams.GroupingLosesNothing | server/redis-helpers.js:46-54 | grouping keeps every `(docid, update)` pair of the batch |
| Streams.GroupStep | server/redis-helpers.js:52 | `setIfUndefined(updates, docid, () => []).push(update)` keeps the grouping invariant |
| Streams.GroupUpdates | server/redis-helpers.js:46-54 | the loop over entries groups every pair by document, in first-seen order, updates in stream order |
| Streams.GroupFields | server/redis-helpers.js:48-53 | the loop over one entry's fields keeps the grouping invariant |
| Streams.RelayStream | server/redis-helpers.js:40-70 | relaying one stream advances its cursor and produces exactly the notifications of the stream |
| Streams.QueryStreamUpdates | server/redis-helpers.js:15-71 | relaying a batch gives exactly the registry and notifications of the batch's fold |
| Streams.FanoutDeliveries | server/redis-helpers.js:65-67 | each distinct subscriber gets one notification for the document |
| Streams.DocNotesDeliveries | server/redis-helpers.js:61-69 | over the grouped documents, each subscriber gets one notification per document of the batch and none for others |
| Streams.ExactlyOnePublishPerDoc | server/redis-helpers.js:57-69 | each subscriber of a registered collection gets exactly one merged update per document in the stream, and an unregistered collection notifies no one |
| Streams.DocNotesShape | server/redis-helpers.js:61-69 | every notification is a `publishUpdate` for that collection, at that clock, of the merge of that document's updates |
| Streams.StreamNotesCarryLastClock | server/redis-helpers.js:55-66 | every notification of a stream carries the id of its last entry |
| Streams.BatchAdvancesCursors | server/redis-helpers.js:55-60 | after a batch, each registered collection's cursor is the last entry id of its last stream in the batch, and no collection is added or removed |
| Streams.AddAll | server/redis-helpers.js:83-85 | `clients.add` over a set gives the union, keeps it distinct, and keeps the old elements first |
| Streams.FoldStaging | server/redis-helpers.js:81-92 | the fold loop computes the folded registry |
| Streams.FoldUnionsClients | server/redis-helpers.js:83-85 | after the fold a collection holds every live and every staged subscriber |
| Streams.FoldPreservesValid | server/redis-helpers.js:81-91 | the fold keeps every subscriber set distinct |
| Streams.FoldTakesMinimumCursor | server/redis-helpers.js:88-90 | on well-formed clocks the folded cursor is the smaller of the live and the staged cursor |
| Streams.FoldResetsToZero | server/redis-helpers.js:88-90 | a staged cursor of `'0'` resets the live cursor to `'0'` |
| Streams.Without | server/redis-helpers.js:180 | `clients.delete(client)` removes exactly that client and keeps the set distinct |
| Streams.UnregisterEffect | server/redis-helpers.js:177-185 | the client leaves the collection, the collection goes when it has no client left, and no other collection changes |
| Streams.UnregisterPreservesValid | server/redis-helpers.js:177-185 | unregistering keeps every subscriber set distinct |
| Streams.TrimBoundIsSuccessor | server/redis-helpers.js:208-211 | the MINID bound is the clock with its counter plus one, so exactly the entries up to and including the clock are evicted |
| Relay.RedisConn.constructor | server/redis-helpers.js:124-138 | a new connection has an empty registry and staging map, is connected, and has written nothing |
| Relay.RedisConn.Destroy | server/redis-helpers.js:143-148 | `destroy` marks the connection closed and changes nothing else |
| Relay.RedisConn.BeginPoll | server/redis-helpers.js:76-93 | an iteration of the poll loop on an open connection folds the staging map into the registry and empties it; on a closed one it does nothing |
| Relay.RedisConn.ReceiveStreams | server/redis-helpers.js:93 | the answer of the blocking read updates the registry and notifies as the batch's fold says |
| Relay.RedisConn.Listen | server/redis-helpers.js:155-167 | `listen` relays the backlog to the client alone, reports the collection synced, stages the client with cursor `'0'`, and starts a poll loop when the registry is empty |
| Relay.RedisConn.Unlisten | server/redis-helpers.js:173-188 | `unlisten` removes the client from both the registry and the staging map |
| Relay.RedisConn.Publish | server/redis-helpers.js:196-198 | `publish` appends exactly one XADD |
| Relay.RedisConn.Trim | server/redis-helpers.js:208-211 | `trim` issues exactly one XTRIM with the MINID bound |
| Relay.RedisConn.ListenGuarded | server/redis-helpers.js:163-165 | with the guard on running loops, `listen` never starts a second poll loop |
| Relay.TwoPollLoops | server/redis-helpers.js:163-165 | as written, listen, leave and listen again leave two poll loops on one open connection |
| Relay.OnePollLoop | server/redis-helpers.js:163-165 | with the guard, the same sequence leaves a single poll loop |
| LegacyRelay.RedisConn.constructor | src/redis-helpers.js:141-155 | a new connection has an empty registry and staging map, is connected, and has written nothing |
| LegacyRelay.RedisConn.Destroy | src/redis-helpers.js:160-165 | `destroy` marks the connection closed and changes nothing else |
| LegacyRelay.RedisConn.BeginPoll | src/redis-helpers.js:99-116 | an iteration of the poll loop on an open connection folds the staging map into the registry and empties it |
| LegacyRelay.RedisConn.ReceiveStreams | src/redis-helpers.js:116 | the answer of the blocking read updates the registry and notifies as the batch's fold says |
| LegacyRelay.RedisConn.Listen | src/redis-helpers.js:172-183 | `listen` relays the backlog to the client alone, with no synced report, stages the client with cursor `'0'`, and starts a poll loop when the registry is empty |
| LegacyRelay.RedisConn.Unlisten | src/redis-helpers.js:189-204 | `unlisten` removes the client from both the registry and the staging map |
| LegacyRelay.RedisConn.Publish | src/redis-helpers.js:211-213 | `publish` appends exactly one XADD |
| LegacyRelay.RedisConn.Trim | src/redis-helpers.js:223-226 | `trim` issues exactly one XTRIM with the MINID bound |
| WebsocketServer.AddSub | server/websocket-server.js:31 | `subs.add` keeps the set distinct, adds exactly the collection, and leaves a present one as it is |
| WebsocketServer.UnlistensExactly | server/websocket-server.js:66-68 | `destroy` makes one `unlisten` per subscription, in order |
| WebsocketServer.SubsAfterAdds | server/websocket-server.js:103-105 | after a message the connection is subscribed to exactly its old collections and the ones the message requested, each once |
| WebsocketServer.SubscriptionFrameEffect | server/websocket-server.js:103-105 | a subscription request makes the relay listen at each requested clock, in order, subscribes the connection to every requested collection, and sends nothing back |
| WebsocketServer.SubscribesCalls | server/websocket-server.js:103-105 | the subscriptions read from a request become listen calls in order and nothing is sent back |
| WebsocketServer.SurvivorsAreTheAlive | server/websocket-server.js:90-96 | the sweep keeps a connection in `clients` exactly when it was alive at the start of the sweep |
| WebsocketServer.SurvivorsDistinct | server/websocket-server.js:90-96 | the sweep keeps each connection at most once |
| WebsocketServer.NoneAliveNoneSurvive | server/websocket-server.js:90-96 | when no connection is alive, the sweep keeps none |
| WebsocketServer.VisitCalls | server/websocket-server.js:91-93 | visiting one connection stops listening to its collections exactly when it is destroyed |
| WebsocketServer.SweepCallsUnlistenDestroyed | server/websocket-server.js:90-96 | the sweep stops listening to exactly the collections of the connections it destroys |
| WebsocketServer.EraseOnce | server/websocket-server.js:72 | deleting a connection that occurs once leaves the others in order |
| WebsocketServer.EraseAbsent | server/websocket-server.js:72 | deleting an absent connection changes nothing |
| WebsocketServer.ClientConn.constructor | server/websocket-server.js:17-24 | a new connection has no subscriptions, is alive, and has been sent nothing |
| WebsocketServer.ClientConn.Subscribe | server/websocket-server.js:30-33 | `subscribe` adds the collection and makes exactly one listen call for this connection, with that clock |
| WebsocketServer.ClientConn.PublishUpdate | server/websocket-server.js:41-46 | `publishUpdate` sends exactly one `serverWriteUpdate` frame |
| WebsocketServer.ClientConn.SyncedCollection | server/websocket-server.js:51-56 | `syncedCollection` sends exactly one SYNCED frame |
| WebsocketServer.ClientConn.Send | server/websocket-server.js:61-63 | `_send` sends the message and nothing else |
| WebsocketServer.ClientConn.Destroy | server/websocket-server.js:65-74 | `destroy` unlistens every subscription in order, leaves `subs` empty, and removes the connection from `clients` |
| WebsocketServer.Server.OnConnection | server/websocket-server.js:99-102 | a new connection is empty and alive, and is added to `clients` |
| WebsocketServer.Server.OnMessage | lib/protocol.js:165-196 | a frame changes the connection's subscriptions and the relay calls exactly as its reading says, sends nothing, and returns the confirmation the reading schedules |
| WebsocketServer.Server.OnPublishesResolved | lib/protocol.js:197-201 | once every publish of the frame has resolved, the connection is sent the confirmation; a rejected publish means it is never called, so nothing is sent |
| WebsocketServer.UpdateFrameConfirm | lib/protocol.js:170-201 | a batch of local updates schedules exactly one confirmation naming all its pending ids in order, and an empty batch schedules none |
| WebsocketServer.Server.HandleEffect | lib/protocol.js:171-195 | carrying out one effect of the reading extends the handled prefix by one; a confirmation is collected, not sent |
| WebsocketServer.Server.OnClose | server/websocket-server.js:106-108 | closing destroys the connection: its collections are unlistened and it leaves `clients` |
| WebsocketServer.Server.PingHandler | server/websocket-server.js:90-96 | the sweep keeps exactly the alive connections, destroys the others and unlistens their collections, and marks every visited connection not alive and pings it |
| WebsocketServer.Server.SweepVisit | server/websocket-server.js:91-95 | visiting one connection keeps the sweep invariant |
| WebsocketServer.Server.Visit | server/websocket-server.js:91-95 | a connection not alive is destroyed; every visited connection is marked not alive and pinged |
| WebsocketServer.Server.FinalSweep | server/websocket-server.js:90-96 | a sweep over connections that are all marked not alive destroys every one of them and leaves `clients` empty |
| WebsocketServer.Server.TwoSweeps | server/websocket-server.js:90-96 | since nothing sets `isAlive` back, two sweeps leave `clients` empty and every connection of the first sweep destroyed |
| LegacyWebsocketServer.PublishesCalls | src/protocol.js:96-101 | the entries of an update message become publish calls in order and leave the subscriptions alone |
| LegacyWebsocketServer.SubscribesCalls | src/protocol.js:105-111 | the pairs of a subscription request become listen calls in order, and the connection is subscribed to exactly its old and the requested collections |
| LegacyWebsocketServer.UpdateFrameEffect | bin/websocket-server.js:73-75 | a frame holding one update message publishes each entry to the relay, in order, and leaves the subscriptions alone |
| LegacyWebsocketServer.SubscriptionFrameEffect | bin/websocket-server.js:73-75 | a subscription request makes the relay listen at each requested clock, in order, and subscribes the connection to every requested collection |
| LegacyWebsocketServer.CloseUnlistensSubscribed | bin/websocket-server.js:48-53 | closing after a subscription request unlistens exactly the old and the requested collections, each once |
| LegacyWebsocketServer.ClientConn.constructor | bin/websocket-server.js:18-24 | a new connection has no subscriptions |
| LegacyWebsocketServer.ClientConn.Subscribe | bin/websocket-server.js:30-33 | `subscribe` adds the collection and makes exactly one listen call for this connection, with that clock |
| LegacyWebsocketServer.ClientConn.PublishUpdate | bin/websocket-server.js:41-46 | `publishUpdate` sends exactly one update frame |
| LegacyWebsocketServer.ClientConn.Destroy | bin/websocket-server.js:48-53 | `destroy` unlistens every subscription in order and leaves `subs` empty, without leaving `clients` |
| LegacyWebsocketServer.Server.OnConnection | bin/websocket-server.js:71-72 | a new connection is empty and is appended to `clients` |
| LegacyWebsocketServer.Server.OnMessage | bin/websocket-server.js:73-75 | a frame changes the connection's subscriptions and the relay calls exactly as its reading says; `clients` and the socket are untouched |
| LegacyWebsocketServer.Server.HandleEffect | bin/websocket-server.js:73-75 | carrying out one effect of the reading extends the handled prefix by one |
| LegacyWebsocketServer.Server.OnClose | bin/websocket-server.js:76-78 | closing destroys the connection once: its collections are unlistened, and `clients` is untouched |
| Client.ReconnectDelay | client/y-redis-client.js:55 | the reconnect delay never exceeds 2500 ms and is `log10(n + 1) * 1200` below that |
| Client.ReconnectDelayGrows | client/y-redis-client.js:51-55 | with no failure counted the retry is immediate, and for a `log10` that never decreases the delay does not shrink as failures grow |
| Client.WithClocks | client/y-redis-client.js:36-39 | a message only moves clocks: the keys and the loaded documents stay |
| Client.ReadUpdateFrame | lib/protocol.js:93-108 | a frame holding one server update is read to its end with that update's effects |
| Client.UpdateEffectsOnCollections | lib/protocol.js:93-108 | an update is always stored, moves only its known collection's clock, leaves an unknown collection alone, and reaches the document only when it is loaded |
| Client.UpdateFrameEffect | client/y-redis-client.js:36-39 | the provider reading an update frame stores it, moves only that collection's clock, and applies it only to a loaded document |
| Client.SubscriptionFrameRead | lib/protocol.js:51-58 | the server reads a subscription request as one subscription per pair, in order, with nothing left over |
| Client.SubscriptionsCoverCollections | client/y-redis-client.js:67 | the subscriptions sent on open name every known collection once, at its clock, and nothing else |
| Client.SubscriptionFrameCoversCollections | client/y-redis-client.js:66-68 | the frame sent on open makes the server subscribe to every known collection exactly once, at its clock |
| Client.HoldersComplete | client/y-redis-client.js:153-162 | `_updateHandler` picks exactly the collections holding this very document, each once |
| Client.Listed | client/y-redis-client.js:129-131 | the listing's subscription map is well formed |
| Client.ListedKeys | client/y-redis-client.js:129-131 | the subscription map holds exactly the listed collection ids |
| Client.AdoptedKeys | client/y-redis-client.js:130-133 | known collections keep their documents and clock, listed new ones join empty, and nothing else joins |
| Client.NamedGrows | client/y-redis-client.js:218 | a new document handle keeps every handle named after its id |
| Client.SubscribeKeepsStoreOk | client/y-redis-client.js:190-207 | starting to load a collection keeps the provider's store invariant |
| Client.InitializeKeepsStoreOk | client/y-redis-client.js:195-196 | moving a loaded collection over keeps the invariant |
| Client.OpenKnownKeepsStoreOk | client/y-redis-client.js:217-235 | opening a document in a known collection keeps the invariant |
| Client.OpenLoadingKeepsStoreOk | client/y-redis-client.js:217-235 | opening a document in a loading collection keeps the invariant |
| Client.WithClocksKeepsStoreOk | client/y-redis-client.js:36-39 | moving clocks keeps the invariant |
| Client.AdoptKeepsStoreOk | client/y-redis-client.js:130-133 | adopting listed collections keeps the invariant |
| Client.RedisWebsocketProvider.constructor | client/y-redis-client.js:91-173 | a new provider has no collections, has asked the storage for its collections, and has one socket connecting |
| Client.RedisWebsocketProvider.SetupWS | client/y-redis-client.js:24-79 | `setupWS` opens a socket and emits `connecting` only when it should connect and has none; otherwise nothing changes |
| Client.RedisWebsocketProvider.OnOpen | client/y-redis-client.js:57-73 | on open the provider is connected, resets its failure count, emits `connected`, sends the subscriptions first, then the cache in order, then empties it |
| Client.RedisWebsocketProvider.FlushOnOpen | client/y-redis-client.js:66-72 | the subscription frame goes first, then every cached frame in order, and the cache is emptied |
| Client.RedisWebsocketProvider.MarkConnected | client/y-redis-client.js:58-64 | the state and `connected` event of `onopen` |
| Client.RedisWebsocketProvider.OnClose | client/y-redis-client.js:40-56 | a close clears the socket; a connected provider emits `disconnected` and retries at once (`onopen` reset the count), a never-opened one counts a failure first, so even its first retry waits `log10(2) * 1200` ms |
| Client.RedisWebsocketProvider.OnMessage | client/y-redis-client.js:36-39 | a frame has exactly its reading's effects on clocks and storage, and stamps the time |
| Client.RedisWebsocketProvider.Send | client/y-redis-client.js:178-184 | `_send` sends when connected and caches otherwise |
| Client.RedisWebsocketProvider.WatchdogTick | client/y-redis-client.js:165-171 | the watchdog closes a connected socket silent for more than 30000 ms, and nothing else |
| Client.RedisWebsocketProvider.SubscribeCollection | client/y-redis-client.js:189-208 | a collection neither known nor loading starts loading with one storage initialisation; otherwise nothing changes |
| Client.RedisWebsocketProvider.OnCollectionInitialized | client/y-redis-client.js:193-205 | the loaded collection moves over with its clock, and a subscription for it is sent only while connected |
| Client.RedisWebsocketProvider.GetDoc | client/y-redis-client.js:214-236 | `getDoc` returns the document for the ids, creating it, with one storage load, only when missing |
| Client.RedisWebsocketProvider.OpenDoc | client/y-redis-client.js:216-235 | the document is found or created in the known or loading collection |
| Client.RedisWebsocketProvider.AddToKnown | client/y-redis-client.js:217-232 | a new document in a known collection gets a fresh handle and one storage load |
| Client.RedisWebsocketProvider.AddToLoading | client/y-redis-client.js:217-232 | a new document in a loading collection gets a fresh handle and one storage load |
| Client.RedisWebsocketProvider.UpdateHandler | client/y-redis-client.js:147-164 | an update from the provider itself is ignored; otherwise one pending update is stored per collection holding this document |
| Client.RedisWebsocketProvider.OnPendingStored | client/y-redis-client.js:155-158 | once stored, the update goes out as one update frame under its pending id |
| Client.RedisWebsocketProvider.OnCollectionsListed | client/y-redis-client.js:127-138 | the listed collections are adopted, and one subscription frame for them is sent only while connected |
| Client.RedisWebsocketProvider.Disconnect | client/y-redis-client.js:238-243 | `disconnect` stops reconnecting and closes the socket if there is one |
| Client.RedisWebsocketProvider.Connect | client/y-redis-client.js:245-250 | `connect` resumes and opens a socket only when there is none |
| Client.FindHolders | client/y-redis-client.js:161 | the loop over collections finds exactly the holders of the document, in key order |
| Client.ListCollections | client/y-redis-client.js:130-133 | the loop over the listing builds the subscription map and adopts the collections |
| Client.OpenFrames | client/y-redis-client.js:66-71 | the frames of `onopen` are the subscription request followed by the cache in order |
| Client.SendAll | client/y-redis-client.js:69-71 | the cache is sent in order, each frame once |
| LegacyClient.WithClocks | src/websocket-client.js:32-36 | a message only moves clocks: the keys and the loaded documents stay |
| LegacyClient.UpdateFrameEffect | src/websocket-client.js:32-36 | reading an update frame moves only that collection's clock, has no effect for an unknown collection, and applies the update only to a loaded document |
| LegacyClient.SubscriptionFrameRead | src/protocol.js:34-41 | the server reads a subscription request as one subscription per pair, in order |
| LegacyClient.SubscriptionsCoverCollections | src/websocket-client.js:62-64 | the subscriptions sent on open name every known collection once, at its clock |
| LegacyClient.SubscriptionFrameCoversCollections | src/websocket-client.js:62-64 | the frame sent on open makes the server subscribe to every known collection exactly once |
| LegacyClient.UpdateFramesRead | src/websocket-client.js:119-128 | the server reads each frame of `_updateHandler` as the publication of that update in that collection |
| LegacyClient.AddCollectionKeepsDocsOk | src/websocket-client.js:155-157 | adding a collection with no documents keeps every handle named after its id |
| LegacyClient.OpenKeepsDocsOk | src/websocket-client.js:158-169 | opening a document keeps every handle named after its id |
| LegacyClient.RedisWebsocketProvider.constructor | src/websocket-client.js:86-137 | a new provider has no collections and one socket connecting |
| LegacyClient.RedisWebsocketProvider.SetupWS | src/websocket-client.js:20-75 | `setupWS` opens a socket only when it should connect and has none |
| LegacyClient.RedisWebsocketProvider.OnOpen | src/websocket-client.js:54-69 | on open the provider is connected, resets its failure count, sends the subscriptions first, then the cache in order, then empties it |
| LegacyClient.RedisWebsocketProvider.FlushOnOpen | src/websocket-client.js:62-68 | the subscription frame goes first, then every cached frame in order |
| LegacyClient.RedisWebsocketProvider.MarkConnected | src/websocket-client.js:55-61 | the state and `connected` event of `onopen` |
| LegacyClient.RedisWebsocketProvider.OnClose | src/websocket-client.js:37-53 | a close clears the socket; a connected provider emits `disconnected` and retries at once, a never-opened one counts a failure before the delay is computed |
| LegacyClient.RedisWebsocketProvider.OnMessage | src/websocket-client.js:32-36 | a frame has exactly its reading's effects on clocks, and stamps the time |
| LegacyClient.RedisWebsocketProvider.Send | src/websocket-client.js:142-148 | `_send` sends when connected and caches otherwise |
| LegacyClient.RedisWebsocketProvider.SendEach | src/websocket-client.js:126 | the frames go out or into the cache in order |
| LegacyClient.RedisWebsocketProvider.WatchdogTick | src/websocket-client.js:129-135 | the watchdog closes a connected socket silent for more than 30000 ms, and nothing else |
| LegacyClient.RedisWebsocketProvider.GetDoc | src/websocket-client.js:154-170 | `getDoc` makes the collection known at clock `'0'` at most once and the document at most once, and subscribes only for a new document while connected |
| LegacyClient.RedisWebsocketProvider.OpenDoc | src/websocket-client.js:158-169 | the document is found or created in the known collection, whose clock is unchanged |
| LegacyClient.RedisWebsocketProvider.UpdateHandler | src/websocket-client.js:119-128 | an update from the provider itself is ignored; otherwise one update frame is sent per collection holding this document |
| LegacyClient.RedisWebsocketProvider.Disconnect | src/websocket-client.js:172-177 | `disconnect` stops reconnecting and closes the socket if there is one |
| LegacyClient.RedisWebsocketProvider.Connect | src/websocket-client.js:179-184 | `connect` resumes and opens a socket only when there is none |
| LegacyClient.OpenFrames | src/websocket-client.js:62-68 | the frames of `onopen` are the subscription request followed by the cache in order |
| LegacyClient.SendAll | src/websocket-client.js:65-67 | the cache is sent in order, each frame once |
| UpdateLists.Insert | src/storage-memory.js:12 | inserting adds exactly the one entry |
| UpdateLists.InsertKeepsSorted | src/storage-memory.js:12 | inserting into a sorted list keeps it sorted |
| UpdateLists.SortUpdates | src/storage-memory.js:12 | `sortUpdates` returns the same entries, ascending by clock in string order |
| UpdateLists.SortSortedIsIdentity | src/storage-memory.js:12 | sorting a strictly ascending list leaves it unchanged |
| UpdateLists.InsertAfterAll | src/storage-memory.js:12 | an entry above all others is inserted last |
| UpdateLists.Put | src/storage-memory.js:73-74 | `collection.set` stores the list under the document, keeps the map well formed, and leaves every other document alone |
| UpdateLists.MatchingDocComplete | src/storage-memory.js:55-59 | one document's rows are exactly its entries with clock `>=` the argument |
| UpdateLists.MatchingInComplete | src/storage-memory.js:54-60 | the rows are exactly the entries of every document with clock `>=` the argument |
| UpdateLists.CollectMatching | src/storage-memory.js:53-60 | the nested `forEach` loops collect exactly the matching rows, document by document |
| UpdateLists.IterationDeliversMatching | src/storage-memory.js:45-63 | `iterateCollection` hands its iterator one sorted list holding a row exactly for each stored entry with clock `>=` the argument |
| MemoryStore.FindFirst | src/storage-memory.js:35 | `findIndex` gives the first entry with clock `>=` the argument, or -1 when there is none |
| MemoryStore.AtOrAfterSuffix | src/storage-memory.js:35-36 | when the qualifying entries are a suffix, they are exactly that suffix |
| MemoryStore.DocumentFromSorted | src/storage-memory.js:33-37 | on a sorted list with some qualifying entry, `getDocument` returns exactly the updates at or after the clock, in order |
| MemoryStore.DocumentFromNoneQualifies | src/storage-memory.js:35-36 | when no entry qualifies, `slice(-1)` returns the last update rather than none |
| MemoryStore.AppendedKeepsSorted | src/storage-memory.js:75-77 | pushing and sorting only when out of order keeps the list sorted and adds exactly the entry; in order, it is a plain append |
| MemoryStore.WithUpdateKeepsValid | src/storage-memory.js:72-79 | `storeUpdate` keeps every list of every collection sorted |
| MemoryStore.StoreUpdateEffect | src/storage-memory.js:72-79 | `storeUpdate` creates the collection and document when missing, adds exactly the new entry, keeps it sorted, and leaves every other document alone |
| MemoryStore.MemoryStorage.constructor | src/storage-memory.js:18-25 | a new store has no collections |
| MemoryStore.MemoryStorage.GetDocument | src/storage-memory.js:33-37 | a missing collection or document gives no updates |
| MemoryStore.MemoryStorage.IterateCollection | src/storage-memory.js:45-63 | the iterator gets the sorted matching rows |
| MemoryStore.MemoryStorage.StoreUpdate | src/storage-memory.js:72-79 | `storeUpdate` keeps the store valid and adds the entry as `WithUpdate` says |
| MemoryStore.MemoryStorage.StoreMergedUpdate | src/storage-memory.js:88-96 | not implemented: it throws |
| MemoryStore.MemoryStorage.StorePendingUpdate | src/storage-memory.js:104-106 | not implemented: it throws |
| MemoryStore.MemoryStorage.IteratePendingUpdates | src/storage-memory.js:111-113 | not implemented: it throws |
| MemoryStore.MemoryStorage.GetPendingDocumentUpdates | src/storage-memory.js:120-122 | not implemented: it throws |
| IndexeddbStore.FindPid | lib/storage-indexeddb.js:170 | `findIndex` gives the first pending entry with that id, or -1 when there is none |
| IndexeddbStore.EnqueuePreservesValid | lib/storage-indexeddb.js:158-161 | a new pending id is not yet in the queue, and the queue keeps distinct issued ids |
| IndexeddbStore.ConfirmPresent | lib/storage-indexeddb.js:169-172 | confirming a queued id removes exactly that entry |
| IndexeddbStore.RemoveAtIndex | lib/storage-indexeddb.js:171 | `splice(i, 1)` removes exactly the entry at `i` |
| IndexeddbStore.RemoveAtPreservesValid | lib/storage-indexeddb.js:171 | removing an entry keeps the queue's ids distinct and issued |
| IndexeddbStore.ConfirmPreservesValid | lib/storage-indexeddb.js:169-172 | confirming keeps the queue valid |
| IndexeddbStore.ConfirmAbsent | lib/storage-indexeddb.js:169-172 | confirming an id not in the queue removes its last entry, since `splice(-1, 1)` counts from the end |
| IndexeddbStore.StoreThenConfirm | lib/storage-indexeddb.js:158-172 | storing a pending update and confirming its id gives back the queue as it was |
| IndexeddbStore.PendingForRoundTrip | lib/storage-indexeddb.js:190-201 | a stored pending update is returned for its document until it is confirmed |
| IndexeddbStore.PendingScenario | lib/storage-indexeddb.js:158-201 | on an empty queue, one stored update is pending for its document and none is once confirmed |
| IndexeddbStore.PendingForComplete | lib/storage-indexeddb.js:190-201 | `getPendingDocumentUpdates` returns exactly the queued updates of that document |
| IndexeddbStore.SurvivesWellFormed | lib/storage-indexeddb.js:144-147 | on well-formed clocks the filter keeps an entry exactly when its sequence number is below the start's, or its clock is after the end; the start's counter plays no part, so an entry with the start's sequence number and a smaller counter is dropped |
| IndexeddbStore.SurvivorsComplete | lib/storage-indexeddb.js:144-147 | the filter keeps exactly the entries that survive |
| IndexeddbStore.MergeReplacesRange | lib/storage-indexeddb.js:136-150 | the merged list holds, in front, exactly the old entries the filter keeps (on well-formed clocks, as `SurvivesWellFormed` says), and last the merged update at the end clock |
| IndexeddbStore.MergeScenario | lib/storage-indexeddb.js:136-150 | merging over `[0, 4]` replaces the entries at 3 and 4 by one entry at 4 |
| IndexeddbStore.IndexeddbStorage.constructor | lib/storage-indexeddb.js:20-29 | a new store starts with no collections, an empty queue and counter 0 |
| IndexeddbStore.IndexeddbStorage.IterateCollection | lib/storage-indexeddb.js:91-109 | the iterator gets the sorted matching rows |
| IndexeddbStore.IndexeddbStorage.StoreMergedUpdate | lib/storage-indexeddb.js:136-150 | the document's list becomes the merged list, and the queue is untouched |
| IndexeddbStore.IndexeddbStorage.StorePendingUpdate | lib/storage-indexeddb.js:158-162 | the update is queued under the decimal text of the counter, which is new, and the counter moves on |
| IndexeddbStore.IndexeddbStorage.ConfirmPendingUpdate | lib/storage-indexeddb.js:169-172 | the queue becomes the confirmed queue, and nothing else changes |
| IndexeddbStore.IndexeddbStorage.IteratePendingUpdates | lib/storage-indexeddb.js:178-183 | every pending entry is visited in queue order |
| IndexeddbStore.IndexeddbStorage.GetPendingDocumentUpdates | lib/storage-indexeddb.js:190-201 | the updates returned are exactly the pending updates of the document, in order |

## Left out

- UTF-8: strings are byte sequences. lib0's encoder growth and base64 are not modelled.
- Var-uint width: lib0's `readVarUint` throws once a value needs more than 53 bits. `Lib0` reads var-uints of any size.
- `Number.parseInt`: the model reads the longest leading run of decimal digits. Leading whitespace, a sign, a `0x` prefix and the 2^53 precision limit are not modelled.
- Asynchrony: every promise continuation, socket event and timer is a method the environment calls. The interleavings between them are not enumerated. A publish that Redis rejects is one whose confirmation continuation (`OnPublishesResolved`) is never called; the rejection itself is not modelled.
- Yjs: `Y.mergeUpdatesV2` is a function parameter, and a `Y.Doc` is a number handle.
- The document-load continuation of `getDoc`, which applies updates and stores the merged state, is not modelled. `getDoc` records one storage load.
- Redis I/O: `xread`, `xadd`, `xtrim` and `quit` are not performed. A read's answer is an input, and the writes are recorded calls.
- The recursive re-entry of the poll loop is not modelled. `BeginPoll` is one iteration of it, and `running` counts the loops started.
- `WebsocketServer.Server.PingHandler` sweeps as if a ping encoder existed, with the ping frame a parameter. lib/protocol.js exports neither `encodePingMessage` nor `PING_INTERVAL`, so the handler as written visits only the first connection: it destroys it if it is not alive, marks it not alive, and then throws a `TypeError` at `protocol.encodePingMessage()`. No later connection is visited or pinged, and the throw escapes the timer callback.
- `WebsocketServer.Server.SweepVisit` visits one connection of the intended sweep, pinging it; the program as written never completes that sweep, because it throws at `protocol.encodePingMessage()` on the first connection.
- `WebsocketServer.Server.FinalSweep` states the outcome of the intended full sweep over every connection; the program as written never completes that sweep, because it throws at `protocol.encodePingMessage()` on the first connection.
- `WebsocketServer.Server.TwoSweeps` relates two consecutive intended full sweeps; the program as written never completes that sweep, because it throws at `protocol.encodePingMessage()` on the first connection.
- `WebsocketServer.SurvivorsAreTheAlive` is about the connections kept by the intended full sweep; the program as written never completes that sweep, because it throws at `protocol.encodePingMessage()` on the first connection.
- `WebsocketServer.SurvivorsDistinct` is about the connections kept by the intended full sweep; the program as written never completes that sweep, because it throws at `protocol.encodePingMessage()` on the first connection.
- `WebsocketServer.NoneAliveNoneSurvive` is about the connections kept by the intended full sweep; the program as written never completes that sweep, because it throws at `protocol.encodePingMessage()` on the first connection.
- `WebsocketServer.Server.Visit` ensures that the visited connection is sent the ping. In the source, building the ping throws after the connection has been marked not alive, so nothing is sent.
- The WebSocket transport is not modelled: `ws.terminate`, its `ws.CLOSED` guard, `binaryType` and the server's port.
- `logger` and `console.error`.
- `Math.log10` is floating point. `Client.ReconnectDelayGrows` takes it as a parameter, with `log10(1) = 0` and never decreasing on `[1, ∞)`, and needs no proof steps.
- The order of entries with equal clocks after `sortUpdates` depends on the engine, because its comparator never answers 0. The model keeps one order.
- The IndexedDB-backed methods of `IndexeddbStorage` are foreign I/O: `getClock`, `initializeCollection`, `getCollections`, `getDocument` and `storeUpdate`.
- The `IndexeddbStorage` constructor as written assigns none of `collections`, `pending` or `nextPid`. The model starts them as an empty map, an empty queue and counter 0.
- src/storage.js and src/object-storage-helpers.js are abstract stubs with nothing to prove.
- Outgoing frames of the providers are recorded as values (`Outgoing`). Their bytes are given by `Wire`.
- The older client's reader (src/protocol.js:76) applies server updates with no origin, while its `_updateHandler` (src/websocket-client.js:119-127) only ignores updates whose origin is the provider. So every server update that changes a loaded document is sent back to the server as a new client update, which the server publishes again. The newer reader passes the provider as the origin (lib/protocol.js:105), so the newer client does not echo. The model does not capture this echo: a `Y.Doc` is a handle, and applying an update raises no update event in the model.
- `Relay.RedisConn.Listen` models the code as written, which can start a second poll loop. `Relay.RedisConn.ListenGuarded` is the corrected version, proved beside it.

## Findings

| source | as written | input that shows it | evidently intended | confidence | as-written member | corrected member |
|---|---|---|---|---|---|---|
| server/redis-helpers.js:163-165 | `listen` starts `queryAllStreamsInterval` whenever the registry is empty, but a running loop only ends when the connection closes | on an open connection, client 1 listens to a collection (one loop starts), unlistens (the registry is empty again), then client 2 listens: a second loop starts beside the first | at most one poll loop per connection | not executed | Relay.TwoPollLoops | Relay.OnePollLoop |
