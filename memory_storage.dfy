/** `MemoryStorage` of src/storage-memory.js: per collection, a map from
    document id to that document's updates, kept sorted by clock in string
    order. Only `getDocument`, `iterateCollection` and `storeUpdate` are
    implemented; the other methods of the client-storage interface throw. */
module MemoryStore {
  import opened Text
  import opened UpdateLists

  /** A call that returns, or lib0's `methodUnimplemented` error. */
  datatype Outcome<T> = Done(value: T) | MethodUnimplemented

  /** The collection map of one store. */
  type Collections = map<Str, DocMap>

  /** Every collection's keys match its lists, and every list is sorted. */
  ghost predicate ValidCollections(cols: Collections)
  {
    forall c :: c in cols ==> WellKeyed(cols[c]) && forall d :: d in cols[c].lists ==> SortedBy(cols[c].lists[d], StoredClock)
  }

  /** `collections.get(collectionid) || new Map()`. */
  function Docs(cols: Collections, collectionid: Str): DocMap
  {
    if collectionid in cols then cols[collectionid] else NoDocs
  }

  // ---------------------------------------------------------------------
  // getDocument

  /** `findIndex(update => update.clock >= clock)`. */
  function FindFirst(list: seq<Stored>, clock: Str): (i: int)
    ensures -1 <= i < |list|
    ensures i >= 0 ==> StrGe(list[i].clock, clock) && forall j :: 0 <= j < i ==> !StrGe(list[j].clock, clock)
    ensures i == -1 ==> forall j :: 0 <= j < |list| ==> !StrGe(list[j].clock, clock)
  {
    if list == [] then -1
    else if StrGe(list[0].clock, clock) then 0
    else
      var i := FindFirst(list[1..], clock);
      if i == -1 then -1 else i + 1
  }

  /** `Array.prototype.slice(start)`: a negative start counts from the end. */
  function SliceFrom<T>(s: seq<T>, start: int): seq<T>
  {
    if start > |s| then []
    else if start >= 0 then s[start..]
    else if |s| + start >= 0 then s[|s| + start..]
    else s
  }

  function UpdatesIn(list: seq<Stored>): seq<Update>
  {
    seq(|list|, i requires 0 <= i < |list| => list[i].update)
  }

  /** `updates.slice(findIndex(…)).map(update => update.update)` on one
      document's list. */
  function DocumentFrom(list: seq<Stored>, clock: Str): seq<Update>
  {
    UpdatesIn(SliceFrom(list, FindFirst(list, clock)))
  }

  /** The entries with clock `>=` the argument, in list order. */
  function AtOrAfter(list: seq<Stored>, clock: Str): seq<Stored>
  {
    if list == [] then []
    else (if StrGe(list[0].clock, clock) then [list[0]] else []) + AtOrAfter(list[1..], clock)
  }

  lemma {:induction false} AtOrAfterSuffix(list: seq<Stored>, clock: Str, i: nat)
    requires i <= |list|
    requires forall j :: 0 <= j < i ==> !StrGe(list[j].clock, clock)
    requires forall j :: i <= j < |list| ==> StrGe(list[j].clock, clock)
    ensures AtOrAfter(list, clock) == list[i..]
  {
    if list != [] {
      if i == 0 {
        AtOrAfterSuffix(list[1..], clock, 0);
      } else {
        AtOrAfterSuffix(list[1..], clock, i - 1);
        assert list[1..][i - 1..] == list[i..];
      }
    }
  }

  /** On a sorted list with some entry at or after the clock, `getDocument`
      returns exactly the updates of the entries at or after it, in order. */
  lemma DocumentFromSorted(list: seq<Stored>, clock: Str)
    requires SortedBy(list, StoredClock)
    requires exists j :: 0 <= j < |list| && StrGe(list[j].clock, clock)
    ensures DocumentFrom(list, clock) == UpdatesIn(AtOrAfter(list, clock))
  {
    var i := FindFirst(list, clock);
    forall j | i <= j < |list|
      ensures StrGe(list[j].clock, clock)
    {
      if j > i {
        assert StrLe(StoredClock(list[i]), StoredClock(list[j]));
        StrLeTransitive(clock, list[i].clock, list[j].clock);
      }
    }
    AtOrAfterSuffix(list, clock, i);
  }

  /** When no entry is at or after the clock, `slice(-1)` hands back the
      last update rather than none. */
  lemma DocumentFromNoneQualifies(list: seq<Stored>, clock: Str)
    requires list != []
    requires forall j :: 0 <= j < |list| ==> !StrGe(list[j].clock, clock)
    ensures DocumentFrom(list, clock) == [list[|list| - 1].update]
    ensures AtOrAfter(list, clock) == []
  {
    AtOrAfterSuffix(list, clock, |list|);
  }

  // ---------------------------------------------------------------------
  // storeUpdate

  /** Push the entry, and sort the list when it landed below the last
      clock. */
  function Appended(list: seq<Stored>, item: Stored): seq<Stored>
  {
    if |list| > 0 && StrLt(item.clock, list[|list| - 1].clock) then SortUpdates(list + [item], StoredClock)
    else list + [item]
  }

  /** A sorted list stays sorted and gains exactly the new entry; in order,
      it is a plain append. */
  lemma AppendedKeepsSorted(list: seq<Stored>, item: Stored)
    requires SortedBy(list, StoredClock)
    ensures SortedBy(Appended(list, item), StoredClock)
    ensures multiset(Appended(list, item)) == multiset(list) + multiset{item}
    ensures |list| == 0 || !StrLt(item.clock, list[|list| - 1].clock) ==> Appended(list, item) == list + [item]
  {
    if !(|list| > 0 && StrLt(item.clock, list[|list| - 1].clock)) {
      var r := list + [item];
      forall i, j | 0 <= i < j < |r|
        ensures StrLe(StoredClock(r[i]), StoredClock(r[j]))
      {
        if j == |list| && i < |list| - 1 {
          assert StrLe(StoredClock(list[i]), StoredClock(list[|list| - 1]));
          StrLeTransitive(list[i].clock, list[|list| - 1].clock, item.clock);
        }
      }
    }
  }

  /** The collection map after `storeUpdate`. */
  function WithUpdate(cols: Collections, collectionid: Str, docid: Str, update: Update, clock: Str): Collections
  {
    var docs := Docs(cols, collectionid);
    cols[collectionid := Put(docs, docid, Appended(Get(docs, docid), Stored(clock, update)))]
  }

  /** `storeUpdate` keeps every list of every collection sorted. */
  lemma WithUpdateKeepsValid(cols: Collections, collectionid: Str, docid: Str, update: Update, clock: Str)
    requires ValidCollections(cols)
    ensures ValidCollections(WithUpdate(cols, collectionid, docid, update, clock))
  {
    var docs := Docs(cols, collectionid);
    assert SortedBy(Get(docs, docid), StoredClock);
    AppendedKeepsSorted(Get(docs, docid), Stored(clock, update));
    var put := Put(docs, docid, Appended(Get(docs, docid), Stored(clock, update)));
    forall d | d in put.lists
      ensures SortedBy(put.lists[d], StoredClock)
    {
      assert put.lists[d] == Get(put, d);
      if d != docid {
        assert Get(put, d) == Get(docs, d);
      }
    }
  }

  /** `storeUpdate` creates the collection and the document when missing,
      grows that document's list by exactly the new entry, keeps it sorted,
      and leaves every other document alone. */
  lemma StoreUpdateEffect(cols: Collections, collectionid: Str, docid: Str, update: Update, clock: Str)
    requires ValidCollections(cols)
    ensures var after := WithUpdate(cols, collectionid, docid, update, clock);
            ValidCollections(after)
            && collectionid in after && docid in after[collectionid].lists
            && multiset(Get(after[collectionid], docid)) == multiset(Get(Docs(cols, collectionid), docid)) + multiset{Stored(clock, update)}
            && SortedBy(Get(after[collectionid], docid), StoredClock)
            && (forall c, d :: (c, d) != (collectionid, docid) ==> Get(Docs(after, c), d) == Get(Docs(cols, c), d))
  {
    var docs := Docs(cols, collectionid);
    assert SortedBy(Get(docs, docid), StoredClock);
    AppendedKeepsSorted(Get(docs, docid), Stored(clock, update));
    WithUpdateKeepsValid(cols, collectionid, docid, update, clock);
  }

  class MemoryStorage {
    var collections: Collections

    ghost predicate Valid()
      reads this
    {
      ValidCollections(collections)
    }

    constructor ()
      ensures Valid() && collections == map[]
    {
      collections := map[];
    }

    /** `getDocument(collectionid, docid, clock)`. */
    function GetDocument(collectionid: Str, docid: Str, clock: Str): (r: seq<Update>)
      reads this
      ensures collectionid !in collections || docid !in collections[collectionid].lists ==> r == []
    {
      DocumentFrom(Get(Docs(collections, collectionid), docid), clock)
    }

    /** `iterateCollection(collectionid, clock, iterator)`: the one list the
        iterator is called with. */
    method IterateCollection(collectionid: Str, clock: Str) returns (delivered: seq<Row>)
      requires Valid()
      ensures delivered == SortUpdates(Matching(Docs(collections, collectionid), clock), RowClock)
    {
      var collection := if collectionid in collections then collections[collectionid] else NoDocs;
      var updates := CollectMatching(collection, clock);
      delivered := SortUpdates(updates, RowClock);
    }

    /** `storeUpdate(collectionid, docid, update, clock)`. */
    method StoreUpdate(collectionid: Str, docid: Str, update: Update, clock: Str)
      requires Valid()
      modifies this
      ensures Valid()
      ensures collections == WithUpdate(old(collections), collectionid, docid, update, clock)
    {
      var collection := if collectionid in collections then collections[collectionid] else NoDocs;
      var docupdates := if docid in collection.lists then collection.lists[docid] else [];
      assert collection == Docs(collections, collectionid) && docupdates == Get(collection, docid);
      ghost var appended := Appended(docupdates, Stored(clock, update));
      var needsSort := |docupdates| > 0 && StrLt(clock, docupdates[|docupdates| - 1].clock);
      docupdates := docupdates + [Stored(clock, update)];
      if needsSort {
        docupdates := SortUpdates(docupdates, StoredClock);
      }
      assert docupdates == appended;
      StoreUpdateEffect(collections, collectionid, docid, update, clock);
      collections := collections[collectionid := Put(collection, docid, docupdates)];
    }

    /** `storeMergedUpdate`: not implemented. */
    method StoreMergedUpdate(collectionid: Str, docid: Str, update: Update, startClock: Str, endClock: Str)
      returns (r: Outcome<()>)
      ensures r == MethodUnimplemented
    {
      r := MethodUnimplemented;
    }

    /** `storePendingUpdate`: not implemented. */
    method StorePendingUpdate(collectionid: Str, docid: Str, update: Update) returns (r: Outcome<Str>)
      ensures r == MethodUnimplemented
    {
      r := MethodUnimplemented;
    }

    /** `iteratePendingUpdates`: not implemented. */
    method IteratePendingUpdates() returns (r: Outcome<seq<(Str, Str, Update)>>)
      ensures r == MethodUnimplemented
    {
      r := MethodUnimplemented;
    }

    /** `getPendingDocumentUpdates`: not implemented. */
    method GetPendingDocumentUpdates(collectionid: Str, docid: Str) returns (r: Outcome<seq<Update>>)
      ensures r == MethodUnimplemented
    {
      r := MethodUnimplemented;
    }
  }
}
