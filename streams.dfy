/** The bookkeeping of the Redis stream relay, shared by both generations
    (server/redis-helpers.js and src/redis-helpers.js hold the same code for
    it): the registry of collections with their read cursor and subscribed
    clients, the grouping of one XREAD batch into one notification per
    subscriber and document, the fold of staged subscriptions into the
    registry, unsubscription, and the XTRIM bound.

    Redis itself is not modelled: the batch XREAD returns is an input, and
    `Y.mergeUpdatesV2` is a function parameter. */
module Streams {
  import opened Text
  import opened Clock

  /** A subscribed connection, compared by identity as the JavaScript `Set`
      does. */
  type ClientId = nat

  /** An opaque Yjs update. */
  type Update = seq<byte>

  /** `{ clock, clients }`: the id of the last stream entry relayed, and the
      subscribers as a `Set` in insertion order. */
  datatype Collection = Collection(clock: Str, clients: seq<ClientId>)

  /** A `Map` from collection id to collection. */
  type Registry = map<Str, Collection>

  predicate ValidRegistry(r: Registry)
  {
    forall k :: k in r ==> Distinct(r[k].clients)
  }

  /** One stream entry: its id and its `[docid, update, docid, update, …]`
      values read as pairs. */
  datatype Entry = Entry(clock: Str, fields: seq<(Str, Update)>)

  /** One stream of an XREAD reply. Redis never returns a stream without
      entries. */
  datatype Stream = Stream(collectionid: Str, entries: seq<Entry>)

  predicate NonEmptyStreams(result: seq<Stream>)
  {
    forall i :: 0 <= i < |result| ==> result[i].entries != []
  }

  /** The calls the relay makes on its `Client`s. */
  datatype Notification =
    | PublishUpdate(client: ClientId, collectionid: Str, docid: Str, update: Update, clock: Str)
    | SyncedCollection(client: ClientId, collectionid: Str)

  // =====================================================================
  // grouping one stream's entries by document

  /** Every `(docid, update)` pair of the entries, in log order. */
  function Pairs(entries: seq<Entry>): seq<(Str, Update)>
  {
    if entries == [] then [] else Pairs(entries[..|entries| - 1]) + entries[|entries| - 1].fields
  }

  /** The document ids in order of first occurrence: the key order of the
      `updates` map. */
  function Docids(pairs: seq<(Str, Update)>): seq<Str>
  {
    if pairs == [] then []
    else
      var ds := Docids(pairs[..|pairs| - 1]);
      if pairs[|pairs| - 1].0 in ds then ds else ds + [pairs[|pairs| - 1].0]
  }

  /** The updates of one document, in log order. */
  function UpdatesOf(pairs: seq<(Str, Update)>, docid: Str): seq<Update>
  {
    if pairs == [] then []
    else UpdatesOf(pairs[..|pairs| - 1], docid) + if pairs[|pairs| - 1].0 == docid then [pairs[|pairs| - 1].1] else []
  }

  lemma {:induction false} DocidsDistinct(pairs: seq<(Str, Update)>)
    ensures Distinct(Docids(pairs))
  {
    if pairs != [] {
      DocidsDistinct(pairs[..|pairs| - 1]);
    }
  }

  /** A document is in the grouping exactly when some pair names it. */
  lemma {:induction false} DocidsComplete(pairs: seq<(Str, Update)>, docid: Str)
    ensures docid in Docids(pairs) <==> exists i :: 0 <= i < |pairs| && pairs[i].0 == docid
  {
    if pairs != [] {
      var init := pairs[..|pairs| - 1];
      DocidsComplete(init, docid);
      if exists i :: 0 <= i < |init| && init[i].0 == docid {
        var i :| 0 <= i < |init| && init[i].0 == docid;
        assert pairs[i].0 == docid;
      }
      if exists i :: 0 <= i < |pairs| && pairs[i].0 == docid {
        var i :| 0 <= i < |pairs| && pairs[i].0 == docid;
        if i < |init| {
          assert init[i].0 == docid;
        }
      }
    }
  }

  lemma {:induction false} UpdatesOfAbsent(pairs: seq<(Str, Update)>, docid: Str)
    requires docid !in Docids(pairs)
    ensures UpdatesOf(pairs, docid) == []
  {
    if pairs != [] {
      UpdatesOfAbsent(pairs[..|pairs| - 1], docid);
    }
  }

  /** How many updates the grouping holds for the given documents. */
  function GroupedCount(pairs: seq<(Str, Update)>, docids: seq<Str>): nat
  {
    if docids == [] then 0 else GroupedCount(pairs, docids[..|docids| - 1]) + |UpdatesOf(pairs, docids[|docids| - 1])|
  }

  lemma {:induction false} GroupedCountSnoc(pairs: seq<(Str, Update)>, x: (Str, Update), docids: seq<Str>)
    requires Distinct(docids)
    ensures GroupedCount(pairs + [x], docids) == GroupedCount(pairs, docids) + if x.0 in docids then 1 else 0
  {
    assert (pairs + [x])[..|pairs|] == pairs;
    if docids != [] {
      var init := docids[..|docids| - 1];
      assert Distinct(init);
      GroupedCountSnoc(pairs, x, init);
      assert x.0 in docids <==> x.0 in init || x.0 == docids[|docids| - 1];
    }
  }

  /** Grouping neither loses nor duplicates an update: the per-document
      lists together hold exactly as many updates as the entries. */
  lemma {:induction false} GroupingLosesNothing(pairs: seq<(Str, Update)>)
    ensures GroupedCount(pairs, Docids(pairs)) == |pairs|
  {
    if pairs != [] {
      var init := pairs[..|pairs| - 1];
      var x := pairs[|pairs| - 1];
      assert pairs == init + [x];
      GroupingLosesNothing(init);
      DocidsDistinct(init);
      GroupedCountSnoc(init, x, Docids(init));
      if x.0 !in Docids(init) {
        var ds := Docids(init) + [x.0];
        assert ds[..|ds| - 1] == Docids(init);
        UpdatesOfAbsent(init, x.0);
      }
    }
  }

  /** The local `updates` map after reading `pairs`, its keys in insertion
      order in `docids`. */
  ghost predicate Grouped(pairs: seq<(Str, Update)>, docids: seq<Str>, updates: map<Str, seq<Update>>)
  {
    docids == Docids(pairs)
    && (forall d :: d in updates <==> d in docids)
    && forall d :: d in updates ==> updates[d] == UpdatesOf(pairs, d)
  }

  /** `map.setIfUndefined(updates, docid, () => []).push(update)` keeps the
      map grouped. */
  lemma GroupStep(pairs: seq<(Str, Update)>, docids: seq<Str>, updates: map<Str, seq<Update>>, x: (Str, Update))
    requires Grouped(pairs, docids, updates)
    ensures x.0 in updates ==> Grouped(pairs + [x], docids, updates[x.0 := updates[x.0] + [x.1]])
    ensures x.0 !in updates ==> Grouped(pairs + [x], docids + [x.0], updates[x.0 := [] + [x.1]])
  {
    assert (pairs + [x])[..|pairs|] == pairs;
    if x.0 !in updates {
      UpdatesOfAbsent(pairs, x.0);
    }
  }

  /** The body of `entries.forEach`: the local `updates` map is filled pair
      by pair. */
  method GroupUpdates(entries: seq<Entry>) returns (docids: seq<Str>, updates: map<Str, seq<Update>>)
    ensures Grouped(Pairs(entries), docids, updates)
  {
    docids, updates := [], map[];
    var e := 0;
    while e < |entries|
      invariant 0 <= e <= |entries|
      invariant Grouped(Pairs(entries[..e]), docids, updates)
    {
      assert entries[..e + 1][..e] == entries[..e];
      docids, updates := GroupFields(Pairs(entries[..e]), entries[e].fields, docids, updates);
      e := e + 1;
    }
    assert entries[..e] == entries;
  }

  /** The inner `forEach` over one entry's field pairs. */
  method GroupFields(ghost before: seq<(Str, Update)>, vals: seq<(Str, Update)>, docids0: seq<Str>, updates0: map<Str, seq<Update>>)
    returns (docids: seq<Str>, updates: map<Str, seq<Update>>)
    requires Grouped(before, docids0, updates0)
    ensures Grouped(before + vals, docids, updates)
  {
    docids, updates := docids0, updates0;
    assert before + vals[..0] == before;
    var i := 0;
    while i < |vals|
      invariant 0 <= i <= |vals|
      invariant Grouped(before + vals[..i], docids, updates)
    {
      var docid := vals[i].0;
      var update := vals[i].1;
      GroupStep(before + vals[..i], docids, updates, vals[i]);
      assert before + vals[..i + 1] == (before + vals[..i]) + [vals[i]];
      if docid !in updates {
        updates := updates[docid := []];
        docids := docids + [docid];
      }
      updates := updates[docid := updates[docid] + [update]];
      i := i + 1;
    }
    assert vals[..i] == vals;
  }

  // =====================================================================
  // relaying one stream and one batch

  /** The id of the batch's last entry, `entries[entries.length - 1][0]`. */
  function LastClock(s: Stream): Str
    requires s.entries != []
  {
    s.entries[|s.entries| - 1].clock
  }

  /** One `publishUpdate` per subscriber, in the set's order. */
  function Fanout(clients: seq<ClientId>, collectionid: Str, docid: Str, update: Update, clock: Str): seq<Notification>
  {
    seq(|clients|, i requires 0 <= i < |clients| => PublishUpdate(clients[i], collectionid, docid, update, clock))
  }

  /** For each document in key order, the merged update sent to every
      subscriber. */
  function DocNotes(clients: seq<ClientId>, collectionid: Str, pairs: seq<(Str, Update)>, docids: seq<Str>,
                    clock: Str, merge: seq<Update> -> Update): seq<Notification>
  {
    if docids == [] then []
    else
      DocNotes(clients, collectionid, pairs, docids[..|docids| - 1], clock, merge)
      + Fanout(clients, collectionid, docids[|docids| - 1], merge(UpdatesOf(pairs, docids[|docids| - 1])), clock)
  }

  /** What one stream of the batch sends: nothing when the collection is
      not in the map. */
  function StreamNotes(reg: Registry, s: Stream, merge: seq<Update> -> Update): seq<Notification>
    requires s.entries != []
  {
    if s.collectionid in reg then
      DocNotes(reg[s.collectionid].clients, s.collectionid, Pairs(s.entries), Docids(Pairs(s.entries)), LastClock(s), merge)
    else []
  }

  /** `collection.clock = nextClock` for a collection in the map. */
  function Advance(reg: Registry, s: Stream): Registry
    requires s.entries != []
  {
    if s.collectionid in reg then reg[s.collectionid := reg[s.collectionid].(clock := LastClock(s))] else reg
  }

  /** `queryStreamUpdates` after the read: the map and the calls after
      relaying every stream of the batch in order. */
  function ProcessBatch(reg: Registry, result: seq<Stream>, merge: seq<Update> -> Update): (Registry, seq<Notification>)
    requires NonEmptyStreams(result)
  {
    if result == [] then (reg, [])
    else
      var prev := ProcessBatch(reg, result[..|result| - 1], merge);
      var s := result[|result| - 1];
      (Advance(prev.0, s), prev.1 + StreamNotes(prev.0, s, merge))
  }

  /** The body of `result.forEach` for one stream. */
  method RelayStream(reg: Registry, s: Stream, merge: seq<Update> -> Update) returns (after: Registry, notes: seq<Notification>)
    requires s.entries != []
    ensures after == Advance(reg, s)
    ensures notes == StreamNotes(reg, s, merge)
  {
    var docids, updates := GroupUpdates(s.entries);
    var nextClock := s.entries[|s.entries| - 1].clock;
    after, notes := reg, [];
    if s.collectionid in reg {
      var collection := reg[s.collectionid];
      after := reg[s.collectionid := collection.(clock := nextClock)];
      var clients := collection.clients;
      var k := 0;
      while k < |docids|
        invariant 0 <= k <= |docids|
        invariant notes == DocNotes(clients, s.collectionid, Pairs(s.entries), docids[..k], nextClock, merge)
      {
        var update := merge(updates[docids[k]]);
        var j := 0;
        while j < |clients|
          invariant 0 <= j <= |clients|
          invariant notes == DocNotes(clients, s.collectionid, Pairs(s.entries), docids[..k], nextClock, merge)
                           + Fanout(clients[..j], s.collectionid, docids[k], update, nextClock)
        {
          assert Fanout(clients[..j + 1], s.collectionid, docids[k], update, nextClock)
              == Fanout(clients[..j], s.collectionid, docids[k], update, nextClock)
                 + [PublishUpdate(clients[j], s.collectionid, docids[k], update, nextClock)];
          notes := notes + [PublishUpdate(clients[j], s.collectionid, docids[k], update, nextClock)];
          j := j + 1;
        }
        assert clients[..j] == clients;
        assert docids[..k + 1][..k] == docids[..k];
        k := k + 1;
      }
      assert docids[..k] == docids;
    }
  }

  /** `queryStreamUpdates(redis, clients, block)` once XREAD has answered
      with `result`. */
  method QueryStreamUpdates(reg: Registry, result: seq<Stream>, merge: seq<Update> -> Update)
    returns (after: Registry, notes: seq<Notification>)
    requires NonEmptyStreams(result)
    ensures (after, notes) == ProcessBatch(reg, result, merge)
  {
    after, notes := reg, [];
    var i := 0;
    while i < |result|
      invariant 0 <= i <= |result|
      invariant (after, notes) == ProcessBatch(reg, result[..i], merge)
    {
      assert result[..i + 1][..i] == result[..i];
      var more: seq<Notification>;
      ghost var prev := notes;
      after, more := RelayStream(after, result[i], merge);
      notes := notes + more;
      i := i + 1;
    }
    assert result[..i] == result;
  }

  // ---------------------------------------------------------------------
  // what a batch promises

  /** Counts the `publishUpdate` calls to one client for one document. */
  function Deliveries(notes: seq<Notification>, client: ClientId, collectionid: Str, docid: Str): nat
  {
    if notes == [] then 0
    else
      Deliveries(notes[..|notes| - 1], client, collectionid, docid)
      + var n := notes[|notes| - 1];
        if n.PublishUpdate? && n.client == client && n.collectionid == collectionid && n.docid == docid then 1 else 0
  }

  lemma {:induction false} DeliveriesAppend(a: seq<Notification>, b: seq<Notification>, client: ClientId, collectionid: Str, docid: Str)
    ensures Deliveries(a + b, client, collectionid, docid)
         == Deliveries(a, client, collectionid, docid) + Deliveries(b, client, collectionid, docid)
  {
    if b == [] {
      assert a + b == a;
    } else {
      assert (a + b)[..|a + b| - 1] == a + b[..|b| - 1];
      assert (a + b)[|a + b| - 1] == b[|b| - 1];
      DeliveriesAppend(a, b[..|b| - 1], client, collectionid, docid);
    }
  }

  lemma {:induction false} FanoutDeliveries(clients: seq<ClientId>, collectionid: Str, docid: Str, update: Update, clock: Str,
                                            client: ClientId, d: Str)
    requires Distinct(clients)
    ensures Deliveries(Fanout(clients, collectionid, docid, update, clock), client, collectionid, d)
         == if client in clients && docid == d then 1 else 0
  {
    if clients != [] {
      var init := clients[..|clients| - 1];
      assert Fanout(clients, collectionid, docid, update, clock)[..|clients| - 1] == Fanout(init, collectionid, docid, update, clock);
      assert Distinct(init);
      FanoutDeliveries(init, collectionid, docid, update, clock, client, d);
      assert client in clients <==> client in init || client == clients[|clients| - 1];
    }
  }

  lemma {:induction false} DocNotesDeliveries(clients: seq<ClientId>, collectionid: Str, pairs: seq<(Str, Update)>, docids: seq<Str>,
                                              clock: Str, merge: seq<Update> -> Update, client: ClientId, docid: Str)
    requires Distinct(clients) && Distinct(docids)
    ensures Deliveries(DocNotes(clients, collectionid, pairs, docids, clock, merge), client, collectionid, docid)
         == if client in clients && docid in docids then 1 else 0
  {
    if docids != [] {
      var init := docids[..|docids| - 1];
      var last := docids[|docids| - 1];
      assert Distinct(init);
      DocNotesDeliveries(clients, collectionid, pairs, init, clock, merge, client, docid);
      DeliveriesAppend(DocNotes(clients, collectionid, pairs, init, clock, merge),
                       Fanout(clients, collectionid, last, merge(UpdatesOf(pairs, last)), clock), client, collectionid, docid);
      FanoutDeliveries(clients, collectionid, last, merge(UpdatesOf(pairs, last)), clock, client, docid);
      assert docid in docids <==> docid in init || docid == last;
    }
  }

  /** Every subscriber of a known collection gets exactly one
      `publishUpdate` per document of the stream, and nobody else gets
      any. */
  lemma ExactlyOnePublishPerDoc(reg: Registry, s: Stream, merge: seq<Update> -> Update, client: ClientId, docid: Str)
    requires ValidRegistry(reg) && s.entries != []
    ensures Deliveries(StreamNotes(reg, s, merge), client, s.collectionid, docid)
         == if s.collectionid in reg && client in reg[s.collectionid].clients
               && exists i :: 0 <= i < |Pairs(s.entries)| && Pairs(s.entries)[i].0 == docid
            then 1 else 0
  {
    DocidsComplete(Pairs(s.entries), docid);
    if s.collectionid in reg {
      var clients := reg[s.collectionid].clients;
      assert Distinct(clients);
      DocidsDistinct(Pairs(s.entries));
      DocNotesDeliveries(clients, s.collectionid, Pairs(s.entries), Docids(Pairs(s.entries)),
                         LastClock(s), merge, client, docid);
      assert StreamNotes(reg, s, merge)
          == DocNotes(clients, s.collectionid, Pairs(s.entries), Docids(Pairs(s.entries)), LastClock(s), merge);
    } else {
      assert StreamNotes(reg, s, merge) == [];
    }
  }

  /** Every call is a `publishUpdate` of the collection at `clock` to one
      of `clients`, for one of `docids`, carrying the merge of that
      document's updates. */
  ghost predicate Addressed(notes: seq<Notification>, clients: seq<ClientId>, collectionid: Str, docids: seq<Str>,
                            clock: Str, pairs: seq<(Str, Update)>, merge: seq<Update> -> Update)
  {
    forall k :: 0 <= k < |notes| ==>
      notes[k].PublishUpdate? && notes[k].collectionid == collectionid && notes[k].clock == clock
      && notes[k].client in clients && notes[k].docid in docids
      && notes[k].update == merge(UpdatesOf(pairs, notes[k].docid))
  }

  lemma {:induction false} DocNotesShape(clients: seq<ClientId>, collectionid: Str, pairs: seq<(Str, Update)>, docids: seq<Str>,
                                         clock: Str, merge: seq<Update> -> Update)
    ensures Addressed(DocNotes(clients, collectionid, pairs, docids, clock, merge), clients, collectionid, docids, clock, pairs, merge)
  {
    if docids != [] {
      var init := docids[..|docids| - 1];
      var last := docids[|docids| - 1];
      DocNotesShape(clients, collectionid, pairs, init, clock, merge);
      var prev := DocNotes(clients, collectionid, pairs, init, clock, merge);
      var fan := Fanout(clients, collectionid, last, merge(UpdatesOf(pairs, last)), clock);
      var notes := DocNotes(clients, collectionid, pairs, docids, clock, merge);
      assert notes == prev + fan;
      forall k | 0 <= k < |notes|
        ensures notes[k].PublishUpdate? && notes[k].collectionid == collectionid && notes[k].clock == clock
                && notes[k].client in clients && notes[k].docid in docids
                && notes[k].update == merge(UpdatesOf(pairs, notes[k].docid))
      {
        if k < |prev| {
          assert notes[k] == prev[k];
          assert prev[k].docid in init;
        } else {
          assert notes[k] == fan[k - |prev|];
        }
      }
    }
  }

  /** Each call carries the stream's collection id, the merge of all the
      document's updates in log order, and the id of the batch's last
      entry. */
  lemma StreamNotesCarryLastClock(reg: Registry, s: Stream, merge: seq<Update> -> Update)
    requires s.entries != []
    ensures forall k :: 0 <= k < |StreamNotes(reg, s, merge)| ==>
              StreamNotes(reg, s, merge)[k].PublishUpdate?
              && StreamNotes(reg, s, merge)[k].collectionid == s.collectionid
              && StreamNotes(reg, s, merge)[k].clock == LastClock(s)
              && StreamNotes(reg, s, merge)[k].update == merge(UpdatesOf(Pairs(s.entries), StreamNotes(reg, s, merge)[k].docid))
  {
    if s.collectionid in reg {
      DocNotesShape(reg[s.collectionid].clients, s.collectionid, Pairs(s.entries), Docids(Pairs(s.entries)), LastClock(s), merge);
    }
  }

  /** A batch moves only cursors: the registry keeps its collections and
      their clients; a collection absent from the map is neither added nor
      notified; a collection with exactly one stream in the batch ends at
      that stream's last entry. */
  lemma {:induction false} BatchAdvancesCursors(reg: Registry, result: seq<Stream>, merge: seq<Update> -> Update, cid: Str)
    requires NonEmptyStreams(result)
    ensures var after := ProcessBatch(reg, result, merge).0;
            after.Keys == reg.Keys
            && (forall k :: k in reg ==> after[k].clients == reg[k].clients)
            && (cid !in reg ==> forall k :: 0 <= k < |ProcessBatch(reg, result, merge).1| ==>
                                 ProcessBatch(reg, result, merge).1[k].collectionid != cid)
            && (cid in reg && (forall i :: 0 <= i < |result| ==> result[i].collectionid != cid) ==> after[cid] == reg[cid])
            && (forall i :: 0 <= i < |result| && result[i].collectionid == cid && cid in reg
                  && (forall j :: i < j < |result| ==> result[j].collectionid != cid)
                  ==> after[cid].clock == LastClock(result[i]))
  {
    if result != [] {
      var init := result[..|result| - 1];
      var s := result[|result| - 1];
      assert NonEmptyStreams(init);
      BatchAdvancesCursors(reg, init, merge, cid);
      var prev := ProcessBatch(reg, init, merge);
      if cid !in reg && s.collectionid == cid {
        assert StreamNotes(prev.0, s, merge) == [];
      }
      if cid !in reg {
        assert prev.1 + StreamNotes(prev.0, s, merge) == ProcessBatch(reg, result, merge).1;
        StreamNotesCarryLastClock(prev.0, s, merge);
      }
      forall i | 0 <= i < |result| && result[i].collectionid == cid && cid in reg
                 && (forall j :: i < j < |result| ==> result[j].collectionid != cid)
        ensures ProcessBatch(reg, result, merge).0[cid].clock == LastClock(result[i])
      {
        if i < |init| {
          assert init[i] == result[i];
          assert s.collectionid != cid;
        }
      }
    }
  }

  // =====================================================================
  // folding staged subscriptions into the registry

  /** `entry.clients.forEach(client => collection.clients.add(client))`. */
  function AddAll(clients: seq<ClientId>, more: seq<ClientId>): (r: seq<ClientId>)
    ensures forall x :: x in r <==> x in clients || x in more
    ensures Distinct(clients) ==> Distinct(r)
    ensures |clients| <= |r| && r[..|clients|] == clients
    decreases |more|
  {
    if more == [] then clients
    else AddAll(if more[0] in clients then clients else clients + [more[0]], more[1..])
  }

  /** One iteration of the fold: the collection is created with the staged
      clock if missing, gains the staged clients, and its cursor is moved
      back to the staged one when `compareTimestamps(live, staged)`. */
  function Merged(live: Registry, cid: Str, staged: Collection): Collection
  {
    var base := if cid in live then live[cid] else Collection(staged.clock, []);
    Collection(if CompareTimestamps(base.clock, staged.clock) then staged.clock else base.clock,
               AddAll(base.clients, staged.clients))
  }

  /** The registry once every staged collection has been folded in. */
  function Folded(live: Registry, staging: Registry): Registry
  {
    map k | k in live.Keys + staging.Keys :: if k in staging then Merged(live, k, staging[k]) else live[k]
  }

  /** The `addToCollections.forEach` loop of `queryAllStreamsInterval`.
      Every staged collection is folded in once and independently of the
      others, so the order of the map's keys does not matter. */
  method FoldStaging(live: Registry, staging: Registry) returns (after: Registry)
    ensures after == Folded(live, staging)
  {
    after := live;
    var todo := staging.Keys;
    while todo != {}
      invariant todo <= staging.Keys
      invariant forall k :: k in after <==> k in live || (k in staging && k !in todo)
      invariant forall k :: k in after ==> after[k] == if k in staging && k !in todo then Merged(live, k, staging[k]) else live[k]
      decreases |todo|
    {
      var cid :| cid in todo;
      var entry := staging[cid];
      var base := if cid in after then after[cid] else Collection(entry.clock, []);
      var clients := AddAll(base.clients, entry.clients);
      var clock := base.clock;
      if CompareTimestamps(clock, entry.clock) {
        clock := entry.clock;
      }
      assert Collection(clock, clients) == Merged(live, cid, entry);
      after := after[cid := Collection(clock, clients)];
      todo := todo - {cid};
    }
    FoldedPointwise(live, staging, after);
  }

  lemma FoldedPointwise(live: Registry, staging: Registry, m: Registry)
    requires forall k :: k in m <==> k in live || k in staging
    requires forall k :: k in m ==> m[k] == if k in staging then Merged(live, k, staging[k]) else live[k]
    ensures m == Folded(live, staging)
  {
  }

  /** The fold keeps every live client and adds every staged one, and adds
      nobody else. */
  lemma FoldUnionsClients(live: Registry, staging: Registry, cid: Str, client: ClientId)
    requires cid in live || cid in staging
    ensures client in Folded(live, staging)[cid].clients
        <==> (cid in live && client in live[cid].clients) || (cid in staging && client in staging[cid].clients)
  {
  }

  lemma FoldPreservesValid(live: Registry, staging: Registry)
    requires ValidRegistry(live)
    ensures ValidRegistry(Folded(live, staging))
  {
  }

  /** On well-formed clocks the fold keeps the smaller cursor: the result
      is one of the two and is `<=` both; a collection new to the registry
      takes the staged clock. */
  lemma FoldTakesMinimumCursor(live: Registry, staging: Registry, cid: Str)
    requires cid in staging && WellFormed(staging[cid].clock)
    requires cid in live ==> WellFormed(live[cid].clock)
    ensures var c := Folded(live, staging)[cid].clock;
            (cid !in live ==> c == staging[cid].clock)
            && (cid in live ==> (c == live[cid].clock || c == staging[cid].clock)
                                && CompareTimestamps(live[cid].clock, c) && CompareTimestamps(staging[cid].clock, c))
  {
    if cid in live {
      CompareTotal(live[cid].clock, staging[cid].clock);
      CompareReflexive(live[cid].clock);
      CompareReflexive(staging[cid].clock);
    }
  }

  /** A collection staged with cursor `'0'` drags a live collection's
      cursor back to `'0'`, so the next read replays the whole stream. */
  lemma FoldResetsToZero(live: Registry, staging: Registry, cid: Str)
    requires cid in staging && staging[cid].clock == ZERO
    requires cid in live ==> WellFormed(live[cid].clock)
    ensures Folded(live, staging)[cid].clock == ZERO
  {
    if cid in live {
      ZeroIsMinimum(live[cid].clock);
    }
  }

  // =====================================================================
  // listening and unlistening

  /** `map.setIfUndefined(addToCollections, id, () => ({ clock: '0',
      clients: new Set() })).clients.add(client)`. */
  function Stage(staging: Registry, cid: Str, client: ClientId): Registry
  {
    var entry := if cid in staging then staging[cid] else Collection(ZERO, []);
    staging[cid := entry.(clients := AddAll(entry.clients, [client]))]
  }

  /** `clients.delete(client)` on a `Set` kept as a sequence. */
  function Without(clients: seq<ClientId>, client: ClientId): (r: seq<ClientId>)
    ensures forall x :: x in r <==> x in clients && x != client
    ensures Distinct(clients) ==> Distinct(r)
  {
    if clients == [] then []
    else if clients[0] == client then
      assert Distinct(clients) ==> Distinct(clients[1..]);
      Without(clients[1..], client)
    else
      assert Distinct(clients) ==> Distinct(clients[1..]) && clients[0] !in clients[1..];
      [clients[0]] + Without(clients[1..], client)
  }

  /** `unregisterHelper(collections)`: drop the client from the collection
      and the collection once it has no client left. */
  function Unregister(reg: Registry, cid: Str, client: ClientId): Registry
  {
    if cid in reg then
      var rest := Without(reg[cid].clients, client);
      if |rest| == 0 then reg - {cid} else reg[cid := reg[cid].(clients := rest)]
    else reg
  }

  /** Unregistering touches one collection: the client leaves it, the other
      clients and the cursor stay, it disappears exactly when it empties,
      and an unknown collection changes nothing. */
  lemma UnregisterEffect(reg: Registry, cid: Str, client: ClientId)
    ensures var r := Unregister(reg, cid, client);
            (cid !in reg ==> r == reg)
            && (forall k :: k != cid ==> (k in r <==> k in reg) && (k in r ==> r[k] == reg[k]))
            && (cid in r <==> cid in reg && exists x :: x in reg[cid].clients && x != client)
            && (cid in r ==> r[cid].clock == reg[cid].clock
                             && forall x :: x in r[cid].clients <==> x in reg[cid].clients && x != client)
  {
    if cid in reg {
      var rest := Without(reg[cid].clients, client);
      if exists x :: x in reg[cid].clients && x != client {
        var x :| x in reg[cid].clients && x != client;
        assert x in rest;
      }
      if |rest| != 0 {
        assert rest[0] in reg[cid].clients && rest[0] != client;
      }
    }
  }

  lemma UnregisterPreservesValid(reg: Registry, cid: Str, client: ClientId)
    requires ValidRegistry(reg)
    ensures ValidRegistry(Unregister(reg, cid, client))
  {
  }

  // =====================================================================
  // trimming

  /** The `MINID` of `trim`: `${t[0]}-${t[1] + 1}`. */
  function TrimBound(clock: Str): Str
  {
    var t := ParseTimestamp(clock);
    NumText(t.sequence) + [DASH] + NumText(Succ(t.ctr))
  }

  /** The bound is the least clock above the argument: XTRIM MINID keeps
      exactly the well-formed entries not covered by `[0, clock]`. */
  lemma TrimBoundIsSuccessor(clock: Str, x: Str)
    requires WellFormed(clock) && WellFormed(x)
    ensures TrimBound(clock) == Format(Value(clock).0, Value(clock).1 + 1)
    ensures CompareTimestamps(x, TrimBound(clock)) <==> !CompareTimestamps(clock, x)
  {
    var (a, b) := Value(clock);
    assert TrimBound(clock) == Format(a, b + 1) by {
      ParseWellFormed(clock);
    }
    ParseFormat(a, b + 1);
    CompareIsLexicographic(x, TrimBound(clock));
    CompareIsLexicographic(clock, x);
  }
}
