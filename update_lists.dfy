/** What the two client-side stores share: per-document update lists,
    `sortUpdates`, and the collection scan of `iterateCollection`, which
    src/storage-memory.js and lib/storage-indexeddb.js write identically.
    Clocks are compared here as strings, with `<` and `>=`, not as parsed
    stream ids. */
module UpdateLists {
  import opened Text

  type Update = seq<byte>

  /** `{ clock, update }`, one entry of a document's list. */
  datatype Stored = Stored(clock: Str, update: Update)

  /** `{ clock, docid, update }`, one entry handed to an `iterateCollection`
      iterator. */
  datatype Row = Row(clock: Str, docid: Str, update: Update)

  function StoredClock(s: Stored): Str { s.clock }

  function RowClock(r: Row): Str { r.clock }

  /** Ascending by clock in string order. */
  ghost predicate SortedBy<T>(s: seq<T>, clockOf: T -> Str)
  {
    forall i, j :: 0 <= i < j < |s| ==> StrLe(clockOf(s[i]), clockOf(s[j]))
  }

  // ---------------------------------------------------------------------
  // sortUpdates

  /** Place `x` before the first entry whose clock it is `<`. */
  function Insert<T(==)>(x: T, s: seq<T>, clockOf: T -> Str): (r: seq<T>)
    ensures multiset(r) == multiset(s) + multiset{x}
  {
    if s == [] then [x]
    else if StrLt(clockOf(x), clockOf(s[0])) then [x] + s
    else
      assert s == [s[0]] + s[1..];
      [s[0]] + Insert(x, s[1..], clockOf)
  }

  lemma {:induction false} InsertKeepsSorted<T>(x: T, s: seq<T>, clockOf: T -> Str)
    requires SortedBy(s, clockOf)
    ensures SortedBy(Insert(x, s, clockOf), clockOf)
  {
    if s == [] {
    } else if StrLt(clockOf(x), clockOf(s[0])) {
      StrLtAsymmetric(clockOf(x), clockOf(s[0]));
      forall j | 0 <= j < |s|
        ensures StrLe(clockOf(x), clockOf(s[j]))
      {
        if j > 0 {
          StrLeTransitive(clockOf(x), clockOf(s[0]), clockOf(s[j]));
        }
      }
      var r := [x] + s;
      forall i, j | 0 <= i < j < |r|
        ensures StrLe(clockOf(r[i]), clockOf(r[j]))
      {
        assert r[j] == s[j - 1];
        if i > 0 {
          assert r[i] == s[i - 1];
        }
      }
    } else {
      var t := s[1..];
      assert SortedBy(t, clockOf) by {
        forall i, j | 0 <= i < j < |t|
          ensures StrLe(clockOf(t[i]), clockOf(t[j]))
        {
          assert t[i] == s[i + 1] && t[j] == s[j + 1];
        }
      }
      InsertKeepsSorted(x, t, clockOf);
      var rest := Insert(x, t, clockOf);
      forall k | 0 <= k < |rest|
        ensures StrLe(clockOf(s[0]), clockOf(rest[k]))
      {
        assert rest[k] in multiset(rest);
        if rest[k] != x {
          assert rest[k] in multiset(t);
          var j :| 0 <= j < |t| && t[j] == rest[k];
          assert s[j + 1] == t[j];
        }
      }
      var r := [s[0]] + rest;
      forall i, j | 0 <= i < j < |r|
        ensures StrLe(clockOf(r[i]), clockOf(r[j]))
      {
        assert r[j] == rest[j - 1];
        if i > 0 {
          assert r[i] == rest[i - 1];
        }
      }
    }
  }

  /** `updates.sort((a, b) => a.clock < b.clock ? -1 : 1)`: the same
      entries, ascending by clock. The comparator never answers 0, so the
      order among equal clocks is the engine's; this model keeps one. */
  function SortUpdates<T(==)>(s: seq<T>, clockOf: T -> Str): (r: seq<T>)
    ensures SortedBy(r, clockOf)
    ensures multiset(r) == multiset(s)
  {
    if s == [] then []
    else
      var init := SortUpdates(s[..|s| - 1], clockOf);
      InsertKeepsSorted(s[|s| - 1], init, clockOf);
      assert s == s[..|s| - 1] + [s[|s| - 1]];
      Insert(s[|s| - 1], init, clockOf)
  }

  /** Strictly ascending by clock. */
  ghost predicate Ascending<T>(s: seq<T>, clockOf: T -> Str)
  {
    forall i, j :: 0 <= i < j < |s| ==> StrLt(clockOf(s[i]), clockOf(s[j]))
  }

  lemma AscendingInit<T>(s: seq<T>, init: seq<T>, clockOf: T -> Str)
    requires s != [] && init == s[..|s| - 1] && Ascending(s, clockOf)
    ensures Ascending(init, clockOf)
    ensures forall i :: 0 <= i < |init| ==> StrLt(clockOf(init[i]), clockOf(s[|s| - 1]))
  {
  }

  /** A sorted list needs no sorting: `SortUpdates` returns it unchanged
      when no clock is below an earlier one. */
  lemma {:induction false} SortSortedIsIdentity<T>(s: seq<T>, clockOf: T -> Str)
    requires Ascending(s, clockOf)
    ensures SortUpdates(s, clockOf) == s
  {
    if s != [] {
      var init, last := s[..|s| - 1], s[|s| - 1];
      AscendingInit(s, init, clockOf);
      calc {
        SortUpdates(s, clockOf);
        { SortUpdatesSnoc(s, clockOf); }
        Insert(last, SortUpdates(init, clockOf), clockOf);
        { SortSortedIsIdentity(init, clockOf); }
        Insert(last, init, clockOf);
        { InsertAfterAll(last, init, clockOf); }
        init + [last];
        s;
      }
    }
  }

  /** Sorting takes the last entry off, sorts the rest, and inserts it. */
  lemma SortUpdatesSnoc<T>(s: seq<T>, clockOf: T -> Str)
    requires s != []
    ensures SortUpdates(s, clockOf) == Insert(s[|s| - 1], SortUpdates(s[..|s| - 1], clockOf), clockOf)
  {
  }

  lemma {:induction false} InsertAfterAll<T>(x: T, s: seq<T>, clockOf: T -> Str)
    requires forall i :: 0 <= i < |s| ==> StrLt(clockOf(s[i]), clockOf(x))
    ensures Insert(x, s, clockOf) == s + [x]
  {
    if s != [] {
      StrLtAsymmetric(clockOf(s[0]), clockOf(x));
      InsertAfterAll(x, s[1..], clockOf);
      assert s == [s[0]] + s[1..];
    }
  }

  // ---------------------------------------------------------------------
  // a collection's documents

  /** A `Map<docid, Array<{ clock, update }>>`: its keys in insertion order
      and its values. */
  datatype DocMap = DocMap(keys: seq<Str>, lists: map<Str, seq<Stored>>)

  ghost predicate WellKeyed(dm: DocMap)
  {
    Distinct(dm.keys) && forall k :: k in dm.lists <==> k in dm.keys
  }

  const NoDocs: DocMap := DocMap([], map[])

  /** `collection.get(docid) || []`. */
  function Get(dm: DocMap, docid: Str): seq<Stored>
  {
    if docid in dm.lists then dm.lists[docid] else []
  }

  /** `collection.set(docid, list)`: a new key goes last, an existing one
      keeps its place. */
  function Put(dm: DocMap, docid: Str, list: seq<Stored>): (r: DocMap)
    ensures WellKeyed(dm) ==> WellKeyed(r)
    ensures Get(r, docid) == list
    ensures forall d :: d != docid ==> Get(r, d) == Get(dm, d)
  {
    DocMap(if docid in dm.lists then dm.keys else dm.keys + [docid], dm.lists[docid := list])
  }

  // ---------------------------------------------------------------------
  // iterateCollection

  /** One document's entries with clock `>=` the argument, in list order. */
  function MatchingDoc(docid: Str, list: seq<Stored>, clock: Str): seq<Row>
  {
    if list == [] then []
    else
      MatchingDoc(docid, list[..|list| - 1], clock)
      + var c := list[|list| - 1]; if StrGe(c.clock, clock) then [Row(c.clock, docid, c.update)] else []
  }

  /** Those of every document, in key order. */
  function MatchingIn(keys: seq<Str>, lists: map<Str, seq<Stored>>, clock: Str): seq<Row>
    requires forall k :: k in keys ==> k in lists
  {
    if keys == [] then []
    else MatchingIn(keys[..|keys| - 1], lists, clock) + MatchingDoc(keys[|keys| - 1], lists[keys[|keys| - 1]], clock)
  }

  function Matching(dm: DocMap, clock: Str): seq<Row>
    requires WellKeyed(dm)
  {
    MatchingIn(dm.keys, dm.lists, clock)
  }

  lemma {:induction false} MatchingDocComplete(docid: Str, list: seq<Stored>, clock: Str, row: Row)
    ensures row in MatchingDoc(docid, list, clock)
        <==> row.docid == docid && Stored(row.clock, row.update) in list && StrGe(row.clock, clock)
  {
    if list != [] {
      var init := list[..|list| - 1];
      MatchingDocComplete(docid, init, clock, row);
      assert list == init + [list[|list| - 1]];
    }
  }

  lemma {:induction false} MatchingInComplete(keys: seq<Str>, lists: map<Str, seq<Stored>>, clock: Str, row: Row)
    requires forall k :: k in keys ==> k in lists
    ensures row in MatchingIn(keys, lists, clock)
        <==> row.docid in keys && Stored(row.clock, row.update) in lists[row.docid] && StrGe(row.clock, clock)
  {
    if keys != [] {
      var init := keys[..|keys| - 1];
      var last := keys[|keys| - 1];
      MatchingInComplete(init, lists, clock, row);
      MatchingDocComplete(last, lists[last], clock, row);
      assert keys == init + [last];
    }
  }

  /** The nested `forEach` of `iterateCollection`: every entry with clock
      `>=` the argument, document by document. */
  method CollectMatching(dm: DocMap, clock: Str) returns (rows: seq<Row>)
    requires WellKeyed(dm)
    ensures rows == Matching(dm, clock)
  {
    rows := [];
    var k := 0;
    while k < |dm.keys|
      invariant 0 <= k <= |dm.keys|
      invariant rows == MatchingIn(dm.keys[..k], dm.lists, clock)
    {
      var docid := dm.keys[k];
      var docupdates := dm.lists[docid];
      ghost var before := rows;
      var i := 0;
      while i < |docupdates|
        invariant 0 <= i <= |docupdates|
        invariant rows == before + MatchingDoc(docid, docupdates[..i], clock)
      {
        assert docupdates[..i + 1][..i] == docupdates[..i];
        if StrGe(docupdates[i].clock, clock) {
          rows := rows + [Row(docupdates[i].clock, docid, docupdates[i].update)];
        }
        i := i + 1;
      }
      assert docupdates[..i] == docupdates;
      assert dm.keys[..k + 1][..k] == dm.keys[..k];
      k := k + 1;
    }
    assert dm.keys[..k] == dm.keys;
  }

  /** `iterateCollection` hands its iterator one list: sorted by clock, and
      holding a row exactly for each stored entry with clock `>=` the
      argument. */
  lemma IterationDeliversMatching(dm: DocMap, clock: Str, row: Row)
    requires WellKeyed(dm)
    ensures SortedBy(SortUpdates(Matching(dm, clock), RowClock), RowClock)
    ensures row in SortUpdates(Matching(dm, clock), RowClock)
        <==> row.docid in dm.lists && Stored(row.clock, row.update) in dm.lists[row.docid] && StrGe(row.clock, clock)
  {
    var m := Matching(dm, clock);
    assert row in SortUpdates(m, RowClock) <==> row in multiset(SortUpdates(m, RowClock));
    assert row in m <==> row in multiset(m);
    MatchingInComplete(dm.keys, dm.lists, clock, row);
  }
}
