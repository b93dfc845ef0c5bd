/** The in-memory half of `IndexeddbStorage` (lib/storage-indexeddb.js):
    the queue of pending local updates with its counter ids, the merged
    update lists per document, and the readers over both. The methods that
    go through IndexedDB are not part of this model.

    The constructor as written assigns none of `collections`, `pending` or
    `nextPid`; the model starts them as an empty map, an empty queue and
    counter 0. */
module IndexeddbStore {
  import opened Text
  import opened Clock
  import opened UpdateLists

  /** `{ pid, update, collectionid, docid }`, one update not yet confirmed
      by the server. */
  datatype Pending = Pending(pid: Str, update: Update, collectionid: Str, docid: Str)

  type Collections = map<Str, DocMap>

  function Docs(cols: Collections, collectionid: Str): DocMap
  {
    if collectionid in cols then cols[collectionid] else NoDocs
  }

  ghost predicate ValidCollections(cols: Collections)
  {
    forall c :: c in cols ==> WellKeyed(cols[c])
  }

  // ---------------------------------------------------------------------
  // the pending queue

  /** `pid` is `'' + k` for a counter value `k` already used. */
  ghost predicate Issued(pid: Str, nextPid: nat)
  {
    exists k: nat :: k < nextPid && pid == Decimal(k)
  }

  /** Every id was issued by the counter before its current value, and no
      two entries share an id. */
  ghost predicate ValidQueue(pending: seq<Pending>, nextPid: nat)
  {
    (forall i :: 0 <= i < |pending| ==> Issued(pending[i].pid, nextPid))
    && forall i, j :: 0 <= i < j < |pending| ==> pending[i].pid != pending[j].pid
  }

  /** The queue after `storePendingUpdate`: `'' + nextPid` appended last. */
  function Enqueued(pending: seq<Pending>, nextPid: nat, collectionid: Str, docid: Str, update: Update): seq<Pending>
  {
    pending + [Pending(Decimal(nextPid), update, collectionid, docid)]
  }

  /** `pending.findIndex(pending => pending.pid === pid)`. */
  function FindPid(pending: seq<Pending>, pid: Str): (i: int)
    ensures -1 <= i < |pending|
    ensures i >= 0 ==> pending[i].pid == pid && forall j :: 0 <= j < i ==> pending[j].pid != pid
    ensures i == -1 ==> forall j :: 0 <= j < |pending| ==> pending[j].pid != pid
  {
    if pending == [] then -1
    else if pending[0].pid == pid then 0
    else
      var i := FindPid(pending[1..], pid);
      if i == -1 then -1 else i + 1
  }

  /** `Array.prototype.splice(start, 1)`: a negative start counts from the
      end, and a start past the end removes nothing. */
  function SpliceOne<T>(s: seq<T>, start: int): seq<T>
  {
    var at := if start >= 0 then start else if |s| + start >= 0 then |s| + start else 0;
    if at < |s| then s[..at] + s[at + 1..] else s
  }

  /** The queue after `confirmPendingUpdate(pid)`. */
  function Confirmed(pending: seq<Pending>, pid: Str): seq<Pending>
  {
    SpliceOne(pending, FindPid(pending, pid))
  }

  /** The updates queued for one document, oldest first. */
  function PendingFor(pending: seq<Pending>, collectionid: Str, docid: Str): seq<Update>
  {
    if pending == [] then []
    else
      var p := pending[|pending| - 1];
      PendingFor(pending[..|pending| - 1], collectionid, docid)
      + if p.collectionid == collectionid && p.docid == docid then [p.update] else []
  }

  /** A new entry gets an id nobody in the queue has, so the queue stays
      valid with the counter one further. */
  lemma EnqueuePreservesValid(pending: seq<Pending>, nextPid: nat, collectionid: Str, docid: Str, update: Update)
    requires ValidQueue(pending, nextPid)
    ensures forall i :: 0 <= i < |pending| ==> pending[i].pid != Decimal(nextPid)
    ensures ValidQueue(Enqueued(pending, nextPid, collectionid, docid, update), nextPid + 1)
  {
    forall i | 0 <= i < |pending|
      ensures pending[i].pid != Decimal(nextPid)
    {
      var k: nat :| k < nextPid && pending[i].pid == Decimal(k);
      if pending[i].pid == Decimal(nextPid) {
        DecimalInjective(k, nextPid);
      }
    }
  }

  /** Confirming an id in the queue removes exactly its entry and keeps
      the others in order. */
  lemma ConfirmPresent(pending: seq<Pending>, pid: Str, i: nat)
    requires i < |pending| && pending[i].pid == pid
    requires forall j :: 0 <= j < |pending| && j != i ==> pending[j].pid != pid
    ensures Confirmed(pending, pid) == pending[..i] + pending[i + 1..]
    ensures forall j :: 0 <= j < |Confirmed(pending, pid)| ==> Confirmed(pending, pid)[j].pid != pid
  {
    var r := Confirmed(pending, pid);
    forall j | 0 <= j < |r|
      ensures r[j].pid != pid
    {
      if j < i {
        assert r[j] == pending[j];
      } else {
        assert r[j] == pending[j + 1];
      }
    }
  }

  /** Where each entry of `s` without its entry `at` came from. */
  lemma RemoveAtIndex<T>(s: seq<T>, at: nat, r: seq<T>)
    requires at < |s| && r == s[..at] + s[at + 1..]
    ensures |r| == |s| - 1
    ensures forall j :: 0 <= j < |r| ==> r[j] == s[if j < at then j else j + 1]
  {
  }

  /** Removing an entry keeps every id issued and all ids distinct. */
  lemma RemoveAtPreservesValid(pending: seq<Pending>, nextPid: nat, at: nat)
    requires ValidQueue(pending, nextPid) && at < |pending|
    ensures ValidQueue(pending[..at] + pending[at + 1..], nextPid)
  {
    var r := pending[..at] + pending[at + 1..];
    RemoveAtIndex(pending, at, r);
    forall j | 0 <= j < |r|
      ensures Issued(r[j].pid, nextPid)
    {
      var from := if j < at then j else j + 1;
      assert r[j] == pending[from];
    }
    forall j1, j2 | 0 <= j1 < j2 < |r|
      ensures r[j1].pid != r[j2].pid
    {
      var from1 := if j1 < at then j1 else j1 + 1;
      var from2 := if j2 < at then j2 else j2 + 1;
      assert r[j1] == pending[from1] && r[j2] == pending[from2];
    }
    assert ValidQueue(r, nextPid);
  }

  /** Confirming, whatever the id, leaves a valid queue. */
  lemma ConfirmPreservesValid(pending: seq<Pending>, nextPid: nat, pid: Str)
    requires ValidQueue(pending, nextPid)
    ensures ValidQueue(Confirmed(pending, pid), nextPid)
  {
    var i := FindPid(pending, pid);
    var at := if i >= 0 then i else if |pending| + i >= 0 then |pending| + i else 0;
    if at < |pending| {
      assert Confirmed(pending, pid) == pending[..at] + pending[at + 1..];
      RemoveAtPreservesValid(pending, nextPid, at);
    }
  }

  /** Confirming an id that is not queued drops the newest entry, because
      `findIndex` answers -1 and `splice(-1, 1)` removes the last element. */
  lemma ConfirmAbsent(pending: seq<Pending>, pid: Str)
    requires forall j :: 0 <= j < |pending| ==> pending[j].pid != pid
    ensures pending == [] ==> Confirmed(pending, pid) == []
    ensures pending != [] ==> Confirmed(pending, pid) == pending[..|pending| - 1]
  {
  }

  /** Storing a pending update and confirming the id it returned leaves the
      queue as it was. */
  lemma StoreThenConfirm(pending: seq<Pending>, nextPid: nat, collectionid: Str, docid: Str, update: Update)
    requires ValidQueue(pending, nextPid)
    ensures Confirmed(Enqueued(pending, nextPid, collectionid, docid, update), Decimal(nextPid)) == pending
  {
    EnqueuePreservesValid(pending, nextPid, collectionid, docid, update);
    var q := Enqueued(pending, nextPid, collectionid, docid, update);
    ConfirmPresent(q, Decimal(nextPid), |pending|);
    assert q[..|pending|] == pending;
  }

  /** Storing appends the update to its document's pending list, and
      confirming it takes it off again. */
  lemma PendingForRoundTrip(pending: seq<Pending>, nextPid: nat, collectionid: Str, docid: Str, update: Update)
    requires ValidQueue(pending, nextPid)
    ensures PendingFor(Enqueued(pending, nextPid, collectionid, docid, update), collectionid, docid)
         == PendingFor(pending, collectionid, docid) + [update]
    ensures PendingFor(Confirmed(Enqueued(pending, nextPid, collectionid, docid, update), Decimal(nextPid)), collectionid, docid)
         == PendingFor(pending, collectionid, docid)
  {
    var q := Enqueued(pending, nextPid, collectionid, docid, update);
    assert q[..|q| - 1] == pending;
    StoreThenConfirm(pending, nextPid, collectionid, docid, update);
  }

  /** From an empty queue: one pending update is listed for its document,
      and none once it is confirmed. */
  lemma PendingScenario(collectionid: Str, docid: Str, update: Update)
    ensures |PendingFor(Enqueued([], 0, collectionid, docid, update), collectionid, docid)| == 1
    ensures PendingFor(Confirmed(Enqueued([], 0, collectionid, docid, update), Decimal(0)), collectionid, docid) == []
  {
    PendingForRoundTrip([], 0, collectionid, docid, update);
  }

  lemma {:induction false} PendingForComplete(pending: seq<Pending>, collectionid: Str, docid: Str, u: Update)
    ensures u in PendingFor(pending, collectionid, docid)
        <==> exists i :: 0 <= i < |pending| && pending[i] == Pending(pending[i].pid, u, collectionid, docid)
  {
    if pending != [] {
      var init := pending[..|pending| - 1];
      PendingForComplete(init, collectionid, docid, u);
      if exists i :: 0 <= i < |init| && init[i] == Pending(init[i].pid, u, collectionid, docid) {
        var i :| 0 <= i < |init| && init[i] == Pending(init[i].pid, u, collectionid, docid);
        assert pending[i] == init[i];
      }
      if exists i :: 0 <= i < |pending| && pending[i] == Pending(pending[i].pid, u, collectionid, docid) {
        var i :| 0 <= i < |pending| && pending[i] == Pending(pending[i].pid, u, collectionid, docid);
        if i < |init| {
          assert init[i] == pending[i];
        }
      }
    }
  }

  // ---------------------------------------------------------------------
  // storeMergedUpdate

  /** The filter of `storeMergedUpdate`: keep an entry below the start's
      sequence number or strictly after the end clock. A `NaN` component
      fails every test, so such an entry is dropped. */
  predicate Survives(clock: Str, start: Stamp, end: Stamp)
  {
    var u := ParseTimestamp(clock);
    NumLt(u.sequence, start.sequence) || NumGt(u.sequence, end.sequence)
    || (NumEq(u.sequence, end.sequence) && NumGt(u.ctr, end.ctr))
  }

  function Survivors(list: seq<Stored>, start: Stamp, end: Stamp): seq<Stored>
  {
    if list == [] then []
    else
      Survivors(list[..|list| - 1], start, end)
      + if Survives(list[|list| - 1].clock, start, end) then [list[|list| - 1]] else []
  }

  /** A document's list after `storeMergedUpdate`: the survivors, then the
      merged update at `endClock`. */
  function MergedList(list: seq<Stored>, update: Update, startClock: Str, endClock: Str): seq<Stored>
  {
    Survivors(list, ParseTimestamp(startClock), ParseTimestamp(endClock)) + [Stored(endClock, update)]
  }

  /** On well-formed clocks an entry survives exactly when its sequence
      number is below the start's or it is strictly after the end. */
  lemma SurvivesWellFormed(clock: Str, startClock: Str, endClock: Str)
    requires WellFormed(clock) && WellFormed(startClock) && WellFormed(endClock)
    ensures Survives(clock, ParseTimestamp(startClock), ParseTimestamp(endClock))
        <==> Value(clock).0 < Value(startClock).0 || !PairGe(Value(endClock), Value(clock))
  {
    ParseWellFormed(clock);
    ParseWellFormed(startClock);
    ParseWellFormed(endClock);
  }

  lemma {:induction false} SurvivorsComplete(list: seq<Stored>, start: Stamp, end: Stamp, x: Stored)
    ensures x in Survivors(list, start, end) <==> x in list && Survives(x.clock, start, end)
  {
    if list != [] {
      var init := list[..|list| - 1];
      SurvivorsComplete(init, start, end, x);
      assert list == init + [list[|list| - 1]];
    }
  }

  /** The merged update replaces the range: it comes last at `endClock`,
      and every other entry is an old entry that survives the filter, each
      surviving one kept. */
  lemma MergeReplacesRange(list: seq<Stored>, update: Update, startClock: Str, endClock: Str, x: Stored)
    ensures var r := MergedList(list, update, startClock, endClock);
            r[|r| - 1] == Stored(endClock, update)
            && (x in r[..|r| - 1] <==> x in list && Survives(x.clock, ParseTimestamp(startClock), ParseTimestamp(endClock)))
  {
    var r := MergedList(list, update, startClock, endClock);
    assert r[..|r| - 1] == Survivors(list, ParseTimestamp(startClock), ParseTimestamp(endClock));
    SurvivorsComplete(list, ParseTimestamp(startClock), ParseTimestamp(endClock), x);
  }

  /** Updates at `"3"` and `"4"` merged over `"0"`..`"4"` leave only the
      merged update. */
  lemma MergeScenario(u1: Update, u2: Update, u3: Update)
    ensures MergedList([Stored(Decimal(3), u1), Stored(Decimal(4), u2)], u3, ZERO, Decimal(4)) == [Stored(Decimal(4), u3)]
  {
    ParseBare(0);
    ParseBare(3);
    ParseBare(4);
    assert ZERO == Decimal(0);
    var start := ParseTimestamp(ZERO);
    var end := ParseTimestamp(Decimal(4));
    assert !Survives(Decimal(3), start, end);
    assert !Survives(Decimal(4), start, end);
    var list := [Stored(Decimal(3), u1), Stored(Decimal(4), u2)];
    assert list[..1] == [Stored(Decimal(3), u1)];
    assert list[..1][..0] == [];
    assert Survivors(list[..1], start, end) == [];
    assert Survivors(list, start, end) == [];
  }

  class IndexeddbStorage {
    var collections: Collections
    var pending: seq<Pending>
    var nextPid: nat

    ghost predicate Valid()
      reads this
    {
      ValidCollections(collections) && ValidQueue(pending, nextPid)
    }

    constructor ()
      ensures Valid() && collections == map[] && pending == [] && nextPid == 0
    {
      collections := map[];
      pending := [];
      nextPid := 0;
    }

    /** `iterateCollection(collectionid, clock, iterator)`: the one list the
        iterator is called with. */
    method IterateCollection(collectionid: Str, clock: Str) returns (delivered: seq<Row>)
      requires Valid()
      ensures delivered == SortUpdates(Matching(Docs(collections, collectionid), clock), RowClock)
    {
      var collection := if collectionid in collections then collections[collectionid] else NoDocs;
      var updates := CollectMatching(collection, clock);
      delivered := SortUpdates(updates, RowClock);
    }

    /** `storeMergedUpdate(collectionid, docid, update, startClock,
        endClock)`. */
    method StoreMergedUpdate(collectionid: Str, docid: Str, update: Update, startClock: Str, endClock: Str)
      requires Valid()
      modifies this
      ensures Valid()
      ensures collections == old(collections)[collectionid := Put(Docs(old(collections), collectionid), docid,
                               MergedList(Get(Docs(old(collections), collectionid), docid), update, startClock, endClock))]
      ensures pending == old(pending) && nextPid == old(nextPid)
    {
      var collection := if collectionid in collections then collections[collectionid] else NoDocs;
      var updates := if docid in collection.lists then collection.lists[docid] else [];
      var end := ParseTimestamp(endClock);
      var start := ParseTimestamp(startClock);
      var filtered := Survivors(updates, start, end);
      filtered := filtered + [Stored(endClock, update)];
      collections := collections[collectionid := Put(collection, docid, filtered)];
    }

    /** `storePendingUpdate(collectionid, docid, update)`: queue the update
        under the next counter value and return that id. */
    method StorePendingUpdate(collectionid: Str, docid: Str, update: Update) returns (pid: Str)
      requires Valid()
      modifies this
      ensures Valid()
      ensures pid == Decimal(old(nextPid)) && nextPid == old(nextPid) + 1
      ensures pending == Enqueued(old(pending), old(nextPid), collectionid, docid, update)
      ensures forall i :: 0 <= i < |old(pending)| ==> old(pending)[i].pid != pid
      ensures collections == old(collections)
    {
      EnqueuePreservesValid(pending, nextPid, collectionid, docid, update);
      pid := Decimal(nextPid);
      nextPid := nextPid + 1;
      pending := pending + [Pending(pid, update, collectionid, docid)];
    }

    /** `confirmPendingUpdate(pid)`. */
    method ConfirmPendingUpdate(pid: Str)
      requires Valid()
      modifies this
      ensures Valid()
      ensures pending == Confirmed(old(pending), pid)
      ensures collections == old(collections) && nextPid == old(nextPid)
    {
      var i := FindPid(pending, pid);
      ghost var before := pending;
      pending := SpliceOne(pending, i);
      ConfirmPreservesValid(before, nextPid, pid);
    }

    /** `iteratePendingUpdates(f)`: the entries `f` is called with, in
        order. */
    method IteratePendingUpdates() returns (visited: seq<Pending>)
      ensures visited == pending
    {
      visited := [];
      var i := 0;
      while i < |pending|
        invariant 0 <= i <= |pending|
        invariant visited == pending[..i]
      {
        visited := visited + [pending[i]];
        i := i + 1;
      }
      assert pending[..i] == pending;
    }

    /** `getPendingDocumentUpdates(collectionid, docid)`. */
    method GetPendingDocumentUpdates(collectionid: Str, docid: Str) returns (updates: seq<Update>)
      ensures updates == PendingFor(pending, collectionid, docid)
    {
      var all := IteratePendingUpdates();
      updates := [];
      var i := 0;
      while i < |all|
        invariant 0 <= i <= |all|
        invariant updates == PendingFor(all[..i], collectionid, docid)
      {
        assert all[..i + 1][..i] == all[..i];
        if all[i].collectionid == collectionid && all[i].docid == docid {
          updates := updates + [all[i].update];
        }
        i := i + 1;
      }
      assert all[..i] == all;
    }
  }
}
