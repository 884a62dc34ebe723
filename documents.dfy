/** Stored documents and the query behaviour the handlers rely on: exact-match filters,
    selection in collection order, and an ascending sort on `created_at`. */
module Documents {
  import opened Common
  import opened ObjectIds

  /** The field values the documents of this system hold. `Time` is a `created_at` stamp. */
  datatype Value =
    | Str(s: string)
    | Bool(b: bool)
    | Null
    | Time(t: nat)
    | Oid(id: ObjectId)
    | List(items: seq<Value>)

  type Document = map<string, Value>

  /** `doc.get(key, default)`. */
  function Get(doc: Document, key: string, default: Value): (v: Value)
    ensures key in doc ==> v == doc[key]
    ensures key !in doc ==> v == default
  {
    if key in doc then doc[key] else default
  }

  /** Exact-match conjunction: every key of the filter is present with an equal value. */
  predicate Matches(doc: Document, filter: Document) {
    forall k :: k in filter ==> k in doc && doc[k] == filter[k]
  }

  /** The documents of a collection that match a filter, in collection order. */
  function Find(coll: seq<Document>, filter: Document): (r: seq<Document>)
    ensures forall d :: d in r <==> d in coll && Matches(d, filter)
    ensures |r| <= |coll|
    decreases |coll|
  {
    if coll == [] then []
    else
      var last := coll[|coll| - 1];
      Find(coll[..|coll| - 1], filter) + (if Matches(last, filter) then [last] else [])
  }

  /** Find distributes over appending documents to the collection. */
  lemma {:induction false} FindAppend(coll: seq<Document>, more: seq<Document>, filter: Document)
    ensures Find(coll + more, filter) == Find(coll, filter) + Find(more, filter)
    decreases |more|
  {
    if more != [] {
      var m, last := more[..|more| - 1], more[|more| - 1];
      assert (coll + more)[..|coll + more| - 1] == coll + m;
      assert (coll + more)[|coll + more| - 1] == last;
      FindAppend(coll, m, filter);
      var tail := if Matches(last, filter) then [last] else [];
      assert Find(coll + more, filter) == Find(coll + m, filter) + tail;
      assert Find(more, filter) == Find(m, filter) + tail;
    } else {
      assert coll + more == coll;
    }
  }

  /** When no document matches, nothing is selected. */
  lemma {:induction false} FindNone(coll: seq<Document>, filter: Document)
    requires forall i :: 0 <= i < |coll| ==> !Matches(coll[i], filter)
    ensures Find(coll, filter) == []
    decreases |coll|
  {
    if coll != [] {
      FindNone(coll[..|coll| - 1], filter);
    }
  }

  /** Sequences with the same multiset hold the same elements. */
  lemma SameElements(a: seq<Document>, b: seq<Document>)
    requires multiset(a) == multiset(b)
    ensures forall x :: x in a <==> x in b
  {
    forall x ensures x in a <==> x in b {
      assert x in a <==> x in multiset(a);
      assert x in b <==> x in multiset(b);
    }
  }

  /** The empty filter selects the whole collection. */
  lemma {:induction false} FindEverything(coll: seq<Document>)
    ensures Find(coll, map[]) == coll
    decreases |coll|
  {
    if coll != [] {
      FindEverything(coll[..|coll| - 1]);
      assert coll == coll[..|coll| - 1] + [coll[|coll| - 1]];
    }
  }

  /** The sort key of a document; documents without a stamp sort first. */
  function CreatedAt(doc: Document): int {
    if "created_at" in doc && doc["created_at"].Time? then doc["created_at"].t else -1
  }

  predicate SortedByCreatedAt(s: seq<Document>) {
    forall i, j :: 0 <= i < j < |s| ==> CreatedAt(s[i]) <= CreatedAt(s[j])
  }

  /** Appending an element no earlier than everything before it keeps a sequence sorted. */
  lemma SortedSnoc(q: seq<Document>, last: Document)
    requires SortedByCreatedAt(q)
    requires forall x :: x in q ==> CreatedAt(x) <= CreatedAt(last)
    ensures SortedByCreatedAt(q + [last])
  {
    forall i, j | 0 <= i < j < |q| + 1 ensures CreatedAt((q + [last])[i]) <= CreatedAt((q + [last])[j]) {
      if j == |q| {
        assert q[i] in q;
      }
    }
  }

  /** Selecting from a sorted collection keeps it sorted. */
  lemma {:induction false} FindSorted(coll: seq<Document>, filter: Document)
    requires SortedByCreatedAt(coll)
    ensures SortedByCreatedAt(Find(coll, filter))
    decreases |coll|
  {
    if coll != [] {
      var p := coll[..|coll| - 1];
      var last := coll[|coll| - 1];
      FindSorted(p, filter);
      var fp := Find(p, filter);
      forall x | x in fp ensures CreatedAt(x) <= CreatedAt(last) {
        var i :| 0 <= i < |p| && p[i] == x;
        assert coll[i] == x;
      }
      if Matches(last, filter) {
        SortedSnoc(fp, last);
      }
    }
  }

  /** Inserts `d` after every element whose stamp is not larger (a stable insertion). */
  function InsertByCreatedAt(s: seq<Document>, d: Document): (r: seq<Document>)
    ensures multiset(r) == multiset(s) + multiset{d}
    decreases |s|
  {
    if s == [] || CreatedAt(s[|s| - 1]) <= CreatedAt(d) then s + [d]
    else
      assert s == s[..|s| - 1] + [s[|s| - 1]];
      InsertByCreatedAt(s[..|s| - 1], d) + [s[|s| - 1]]
  }

  /** Inserting into a sorted sequence keeps it sorted. */
  lemma {:induction false} InsertSorted(s: seq<Document>, d: Document)
    requires SortedByCreatedAt(s)
    ensures SortedByCreatedAt(InsertByCreatedAt(s, d))
    decreases |s|
  {
    if s != [] && CreatedAt(s[|s| - 1]) > CreatedAt(d) {
      var p, last := s[..|s| - 1], s[|s| - 1];
      assert SortedByCreatedAt(p);
      InsertSorted(p, d);
      var q := InsertByCreatedAt(p, d);
      assert InsertByCreatedAt(s, d) == q + [last];
      forall x | x in q ensures CreatedAt(x) <= CreatedAt(last) {
        assert x in multiset(q);
        if x != d {
          assert x in multiset(p);
          var i :| 0 <= i < |p| && p[i] == x;
          assert s[i] == x;
        }
      }
      SortedSnoc(q, last);
    }
  }

  /** A stable sort, ascending by `created_at`. */
  function SortByCreatedAt(s: seq<Document>): (r: seq<Document>)
    ensures multiset(r) == multiset(s)
    decreases |s|
  {
    if s == [] then []
    else
      assert s == s[..|s| - 1] + [s[|s| - 1]];
      InsertByCreatedAt(SortByCreatedAt(s[..|s| - 1]), s[|s| - 1])
  }

  /** The sort's result is ascending by `created_at`. */
  lemma {:induction false} SortIsSorted(s: seq<Document>)
    ensures SortedByCreatedAt(SortByCreatedAt(s))
    decreases |s|
  {
    if s != [] {
      SortIsSorted(s[..|s| - 1]);
      InsertSorted(SortByCreatedAt(s[..|s| - 1]), s[|s| - 1]);
    }
  }

  /** Sorting a sequence that is already sorted changes nothing. */
  lemma {:induction false} SortSortedIsIdentity(s: seq<Document>)
    requires SortedByCreatedAt(s)
    ensures SortByCreatedAt(s) == s
    decreases |s|
  {
    if s != [] {
      var p := s[..|s| - 1];
      var last := s[|s| - 1];
      assert SortedByCreatedAt(p);
      SortSortedIsIdentity(p);
      assert SortByCreatedAt(s) == InsertByCreatedAt(p, last);
      assert p != [] ==> CreatedAt(p[|p| - 1]) <= CreatedAt(last);
      assert InsertByCreatedAt(p, last) == p + [last];
      assert s == p + [last];
    }
  }
}
