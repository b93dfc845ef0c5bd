/** `RedisConn` of the first generation, src/redis-helpers.js. It is the
    server generation's class without `syncedCollection`: the registry of relayed
    collections, the staging map new subscriptions wait in until the next
    poll, and the calls made on the write connection.

    Every asynchronous step is one method: `Listen` is the continuation that
    runs once the backlog read has answered, `BeginPoll` is one iteration of
    `queryAllStreamsInterval` up to its blocking read, and `ReceiveStreams`
    is what runs when that read answers. Between any two of them other
    methods may run, as they can between the awaits of the source. */
module LegacyRelay {
  import opened Text
  import opened Clock
  import opened Streams

  /** A command sent on the write connection (its reply is not modelled). */
  datatype RedisCall =
    | Xadd(stream: Str, docid: Str, update: Update)
    | XtrimMinid(stream: Str, minid: Str)

  class RedisConn {
    /** `collections`: what the poll loop reads, with its cursors. */
    var collections: Registry
    /** `addToCollections`: subscriptions staged for the next poll. */
    var addToCollections: Registry
    var isConnected: bool
    /** The commands sent on `redisWrite`, in order. */
    var writes: seq<RedisCall>
    /** How many `queryAllStreamsInterval` loops are running. */
    var running: nat

    ghost predicate Valid()
      reads this
    {
      ValidRegistry(collections) && ValidRegistry(addToCollections)
    }

    constructor ()
      ensures Valid()
      ensures collections == map[] && addToCollections == map[]
      ensures isConnected && writes == [] && running == 0
    {
      collections := map[];
      addToCollections := map[];
      isConnected := true;
      writes := [];
      running := 0;
    }

    /** `destroy`, once both connections have quit. */
    method Destroy()
      modifies this
      ensures !isConnected
      ensures collections == old(collections) && addToCollections == old(addToCollections)
      ensures writes == old(writes) && running == old(running)
    {
      isConnected := false;
    }

    /** One iteration of `queryAllStreamsInterval` up to its read: a closed
        connection ends the loop; otherwise every staged subscription is
        folded into the registry and the staging map is emptied. Returns
        whether the loop goes on to read. */
    method BeginPoll() returns (reading: bool)
      requires Valid()
      modifies this
      ensures Valid()
      ensures reading == old(isConnected)
      ensures reading ==> collections == Folded(old(collections), old(addToCollections)) && addToCollections == map[]
                          && running == old(running)
      ensures !reading ==> collections == old(collections) && addToCollections == old(addToCollections)
                           && running == if old(running) > 0 then old(running) - 1 else 0
      ensures isConnected == old(isConnected) && writes == old(writes)
    {
      if !isConnected {
        running := if running > 0 then running - 1 else 0;
        return false;
      }
      FoldPreservesValid(collections, addToCollections);
      collections := FoldStaging(collections, addToCollections);
      addToCollections := map[];
      return true;
    }

    /** The blocking read has answered: relay the batch and move the
        cursors of the collections it names. */
    method ReceiveStreams(result: seq<Stream>, merge: seq<Update> -> Update) returns (notes: seq<Notification>)
      requires NonEmptyStreams(result)
      requires Valid()
      modifies this
      ensures Valid()
      ensures (collections, notes) == ProcessBatch(old(collections), result, merge)
      ensures addToCollections == old(addToCollections) && isConnected == old(isConnected)
      ensures writes == old(writes) && running == old(running)
    {
      ghost var before := collections;
      collections, notes := QueryStreamUpdates(collections, result, merge);
      forall k | k in collections
        ensures Distinct(collections[k].clients)
      {
        BatchAdvancesCursors(before, result, merge, k);
      }
    }

    /** `listen(client, collectionid, startClock)` once the backlog read
        (of `collectionid` from `startClock`, for this client alone) has
        answered with `backlog`: relay the backlog, stage the client with
        cursor `'0'`, and start the poll loop when the registry is empty.
        Nothing tells the client that the backlog is complete. */
    method Listen(client: ClientId, collectionid: Str, startClock: Str, backlog: seq<Stream>, merge: seq<Update> -> Update)
      returns (notes: seq<Notification>)
      requires NonEmptyStreams(backlog)
      requires Valid()
      modifies this
      ensures Valid()
      ensures notes == ProcessBatch(map[collectionid := Collection(startClock, [client])], backlog, merge).1
      ensures |old(collections)| != 0 ==>
                collections == old(collections) && addToCollections == Stage(old(addToCollections), collectionid, client)
                && running == old(running)
      ensures |old(collections)| == 0 && isConnected ==>
                collections == Folded(old(collections), Stage(old(addToCollections), collectionid, client))
                && addToCollections == map[] && running == old(running) + 1
      ensures |old(collections)| == 0 && !isConnected ==>
                collections == old(collections) && addToCollections == Stage(old(addToCollections), collectionid, client)
                && running == old(running)
      ensures isConnected == old(isConnected) && writes == old(writes)
    {
      var local := map[collectionid := Collection(startClock, [client])];
      var _, relayed := QueryStreamUpdates(local, backlog, merge);
      notes := relayed;
      addToCollections := Stage(addToCollections, collectionid, client);
      if |collections| == 0 {
        running := running + 1;
        var _ := BeginPoll();
      }
    }

    /** `unlisten(client, collectionId)`: the client leaves both the
        registry and the staging map. */
    method Unlisten(client: ClientId, collectionid: Str)
      requires Valid()
      modifies this
      ensures Valid()
      ensures collections == Unregister(old(collections), collectionid, client)
      ensures addToCollections == Unregister(old(addToCollections), collectionid, client)
      ensures isConnected == old(isConnected) && writes == old(writes) && running == old(running)
    {
      UnregisterPreservesValid(collections, collectionid, client);
      UnregisterPreservesValid(addToCollections, collectionid, client);
      collections := Unregister(collections, collectionid, client);
      addToCollections := Unregister(addToCollections, collectionid, client);
    }

    /** `publish(collectionId, docId, update)`: append the update to the
        collection's stream (the reply is dropped). */
    method Publish(collectionid: Str, docid: Str, update: Update)
      modifies this
      ensures writes == old(writes) + [Xadd(collectionid, docid, update)]
      ensures collections == old(collections) && addToCollections == old(addToCollections)
      ensures isConnected == old(isConnected) && running == old(running)
    {
      writes := writes + [Xadd(collectionid, docid, update)];
    }

    /** `trim(collectionId, clock)`: evict every entry up to and including
        `clock` (see `Streams.TrimBoundIsSuccessor`). */
    method Trim(collectionid: Str, clock: Str)
      modifies this
      ensures writes == old(writes) + [XtrimMinid(collectionid, TrimBound(clock))]
      ensures collections == old(collections) && addToCollections == old(addToCollections)
      ensures isConnected == old(isConnected) && running == old(running)
    {
      var t := ParseTimestamp(clock);
      writes := writes + [XtrimMinid(collectionid, NumText(t.sequence) + [DASH] + NumText(Succ(t.ctr)))];
    }
  }
}
