/** Canonical forms: the sorted API document, and the canonical record behind a report's content hash.
    Object keys are ordered by their rank in the sort; the ranks of distinct keys differ. */
module CanonicalJson {

  type Key = nat

  datatype Json = Atom(id: nat) | Array(items: seq<Json>) | Object(entries: seq<Entry>)

  datatype Entry = Entry(key: Key, value: Json)

  function Keys(entries: seq<Entry>): set<Key> {
    if entries == [] then {} else Keys(entries[..|entries| - 1]) + {entries[|entries| - 1].key}
  }

  function Get(entries: seq<Entry>, key: Key): Json
    requires key in Keys(entries)
  {
    var last := entries[|entries| - 1];
    if last.key == key then last.value else Get(entries[..|entries| - 1], key)
  }

  predicate DistinctKeys(entries: seq<Entry>) {
    entries == [] ||
    (DistinctKeys(entries[..|entries| - 1]) && entries[|entries| - 1].key !in Keys(entries[..|entries| - 1]))
  }

  // What JSON.parse can produce: no object repeats a key.
  predicate WellFormed(v: Json) {
    match v
    case Atom(_) => true
    case Array(items) => WellFormedItems(items)
    case Object(entries) => DistinctKeys(entries) && WellFormedEntries(entries)
  }

  predicate WellFormedItems(items: seq<Json>) {
    items == [] || (WellFormedItems(items[..|items| - 1]) && WellFormed(items[|items| - 1]))
  }

  predicate WellFormedEntries(entries: seq<Entry>) {
    entries == [] || (WellFormedEntries(entries[..|entries| - 1]) && WellFormedEntry(entries[|entries| - 1]))
  }

  predicate WellFormedEntry(e: Entry) { WellFormed(e.value) }

  // ---------------------------------------------------------------- the sort

  function Insert(e: Entry, sorted: seq<Entry>): seq<Entry> {
    if sorted == [] || sorted[|sorted| - 1].key <= e.key then sorted + [e]
    else Insert(e, sorted[..|sorted| - 1]) + [sorted[|sorted| - 1]]
  }

  function SortForDeterminism(v: Json): Json {
    match v
    case Atom(_) => v
    case Array(items) => Array(SortItems(items))
    case Object(entries) => Object(SortEntries(entries))
  }

  function SortItems(items: seq<Json>): (r: seq<Json>)
    ensures |r| == |items|
  {
    if items == [] then [] else SortItems(items[..|items| - 1]) + [SortForDeterminism(items[|items| - 1])]
  }

  function SortEntries(entries: seq<Entry>): seq<Entry> {
    if entries == [] then []
    else Insert(SortEntry(entries[|entries| - 1]), SortEntries(entries[..|entries| - 1]))
  }

  function SortEntry(e: Entry): Entry { Entry(e.key, SortForDeterminism(e.value)) }

  /** The same document up to the order of keys in every object. */
  predicate Same(v: Json, w: Json)
    decreases v, 1, 0
  {
    match v
    case Atom(_) => w == v
    case Array(items) => w.Array? && |items| == |w.items| && SameItems(items, w.items)
    case Object(entries) => w.Object? && |entries| == |w.entries| && SameEntries(entries, w.entries)
  }

  predicate SameItems(items: seq<Json>, others: seq<Json>)
    requires |items| == |others|
    decreases items, 0, |items|
  {
    items == [] || (SameItems(items[..|items| - 1], others[..|others| - 1]) && Same(items[|items| - 1], others[|others| - 1]))
  }

  predicate SameEntries(entries: seq<Entry>, others: seq<Entry>)
    decreases entries, 0, |entries|
  {
    entries == [] ||
    (SameEntries(entries[..|entries| - 1], others) && SameEntry(entries[|entries| - 1], others))
  }

  predicate SameEntry(e: Entry, others: seq<Entry>)
    decreases e, 0, 0
  {
    e.key in Keys(others) && Same(e.value, Get(others, e.key))
  }

  // ---------------------------------------------------------------- sorted entries

  ghost predicate Increasing(entries: seq<Entry>) {
    entries == [] ||
    (var front := entries[..|entries| - 1];
     Increasing(front) && forall k :: k in Keys(front) ==> k < entries[|entries| - 1].key)
  }

  lemma KeysSnoc(front: seq<Entry>, last: Entry)
    ensures Keys(front + [last]) == Keys(front) + {last.key}
    ensures forall k :: k in Keys(front + [last]) ==> Get(front + [last], k) == if k == last.key then last.value else Get(front, k)
  {
    assert (front + [last])[..|front|] == front;
  }

  lemma IncreasingSnoc(front: seq<Entry>, last: Entry)
    requires Increasing(front) && forall k :: k in Keys(front) ==> k < last.key
    ensures Increasing(front + [last])
  {
    assert (front + [last])[..|front|] == front;
  }

  lemma InsertAtEnd(e: Entry, sorted: seq<Entry>)
    requires Increasing(sorted) && e.key !in Keys(sorted) && (sorted == [] || sorted[|sorted| - 1].key <= e.key)
    ensures Increasing(sorted + [e])
  {
    if sorted != [] {
      LastInKeys(sorted);
      forall k | k in Keys(sorted) ensures k < e.key { LastIsLargest(sorted, k); }
    }
    IncreasingSnoc(sorted, e);
  }

  lemma {:induction false} InsertKeys(e: Entry, sorted: seq<Entry>)
    requires e.key !in Keys(sorted)
    ensures Keys(Insert(e, sorted)) == Keys(sorted) + {e.key}
  {
    if sorted == [] || sorted[|sorted| - 1].key <= e.key {
      KeysSnoc(sorted, e);
    } else {
      var front, last := sorted[..|sorted| - 1], sorted[|sorted| - 1];
      InsertKeys(e, front);
      KeysSnoc(Insert(e, front), last);
    }
  }

  lemma {:induction false} InsertGet(e: Entry, sorted: seq<Entry>, k: Key)
    requires e.key !in Keys(sorted) && k in Keys(sorted) + {e.key}
    ensures k in Keys(Insert(e, sorted)) && Get(Insert(e, sorted), k) == if k == e.key then e.value else Get(sorted, k)
  {
    InsertKeys(e, sorted);
    if sorted == [] || sorted[|sorted| - 1].key <= e.key {
      KeysSnoc(sorted, e);
    } else {
      var front, last := sorted[..|sorted| - 1], sorted[|sorted| - 1];
      InsertKeys(e, front);
      if k != last.key { InsertGet(e, front, k); }
      KeysSnoc(Insert(e, front), last);
    }
  }

  lemma {:induction false} InsertSorts(e: Entry, sorted: seq<Entry>)
    requires Increasing(sorted) && e.key !in Keys(sorted)
    ensures Increasing(Insert(e, sorted))
  {
    if sorted == [] || sorted[|sorted| - 1].key <= e.key {
      InsertAtEnd(e, sorted);
    } else {
      var front, last := sorted[..|sorted| - 1], sorted[|sorted| - 1];
      InsertSorts(e, front);
      InsertKeys(e, front);
      IncreasingSnoc(Insert(e, front), last);
    }
  }

  lemma {:induction false} SortKeys(entries: seq<Entry>)
    requires DistinctKeys(entries)
    ensures Increasing(SortEntries(entries)) && Keys(SortEntries(entries)) == Keys(entries)
  {
    if entries != [] {
      var front, last := entries[..|entries| - 1], entries[|entries| - 1];
      SortKeys(front);
      InsertKeys(SortEntry(last), SortEntries(front));
      InsertSorts(SortEntry(last), SortEntries(front));
    }
  }

  lemma {:induction false} SortGet(entries: seq<Entry>, k: Key)
    requires DistinctKeys(entries) && k in Keys(entries)
    ensures k in Keys(SortEntries(entries)) && Get(SortEntries(entries), k) == SortForDeterminism(Get(entries, k))
  {
    var front, last := entries[..|entries| - 1], entries[|entries| - 1];
    SortKeys(front);
    if k != last.key { SortGet(front, k); }
    InsertGet(SortEntry(last), SortEntries(front), k);
  }

  lemma {:induction false} LastIsLargest(entries: seq<Entry>, key: Key)
    requires Increasing(entries) && key in Keys(entries)
    ensures entries != [] && key <= entries[|entries| - 1].key
  {
  }

  lemma LastInKeys(entries: seq<Entry>)
    requires entries != []
    ensures entries[|entries| - 1].key in Keys(entries) && Get(entries, entries[|entries| - 1].key) == entries[|entries| - 1].value
  {
  }

  /** Sorted entries are determined by their keys and the value of each. */
  lemma {:induction false} SameKeysSameList(a: seq<Entry>, b: seq<Entry>)
    requires Increasing(a) && Increasing(b) && Keys(a) == Keys(b)
    requires forall k :: k in Keys(a) ==> Get(a, k) == Get(b, k)
    ensures a == b
  {
    if a == [] {
      if b != [] { LastInKeys(b); }
    } else {
      LastInKeys(a);
      LastIsLargest(b, a[|a| - 1].key);
      LastInKeys(b);
      LastIsLargest(a, b[|b| - 1].key);
      var front, front' := a[..|a| - 1], b[..|b| - 1];
      var last := a[|a| - 1];
      assert last == b[|b| - 1];
      assert a == front + [last] && b == front' + [last];
      KeysSnoc(front, last);
      KeysSnoc(front', last);
      assert Keys(front) == Keys(a) - {last.key} && Keys(front') == Keys(b) - {last.key};
      forall k | k in Keys(front) ensures Get(front, k) == Get(front', k) { assert Get(a, k) == Get(b, k); }
      SameKeysSameList(front, front');
    }
  }

  // ---------------------------------------------------------------- same entries

  lemma {:induction false} SameEntriesFacts(entries: seq<Entry>, others: seq<Entry>)
    requires DistinctKeys(entries)
    ensures SameEntries(entries, others) <==>
            Keys(entries) <= Keys(others) && forall k :: k in Keys(entries) ==> Same(Get(entries, k), Get(others, k))
  {
    if entries != [] {
      var front, last := entries[..|entries| - 1], entries[|entries| - 1];
      SameEntriesFacts(front, others);
      assert entries == front + [last];
      KeysSnoc(front, last);
      LastInKeys(entries);
    }
  }

  lemma {:induction false} KeyCount(entries: seq<Entry>)
    requires DistinctKeys(entries)
    ensures |Keys(entries)| == |entries|
  {
    if entries != [] { KeyCount(entries[..|entries| - 1]); }
  }

  lemma SubsetOfSameSize(a: set<Key>, b: set<Key>)
    requires a <= b && |a| == |b|
    ensures a == b
  {
    assert b == a + (b - a);
    assert |b - a| == 0;
  }

  lemma {:induction false} IncreasingIsDistinct(entries: seq<Entry>)
    requires Increasing(entries)
    ensures DistinctKeys(entries)
  {
    if entries != [] { IncreasingIsDistinct(entries[..|entries| - 1]); }
  }

  lemma {:induction false} InsertLength(e: Entry, sorted: seq<Entry>)
    ensures |Insert(e, sorted)| == |sorted| + 1
  {
    if !(sorted == [] || sorted[|sorted| - 1].key <= e.key) { InsertLength(e, sorted[..|sorted| - 1]); }
  }

  lemma {:induction false} SortLength(entries: seq<Entry>)
    ensures |SortEntries(entries)| == |entries|
  {
    if entries != [] {
      var last := entries[|entries| - 1];
      SortLength(entries[..|entries| - 1]);
      InsertLength(SortEntry(last), SortEntries(entries[..|entries| - 1]));
    }
  }

  lemma {:induction false} WellFormedGet(entries: seq<Entry>, key: Key)
    requires WellFormedEntries(entries) && key in Keys(entries)
    ensures WellFormed(Get(entries, key))
  {
    if entries[|entries| - 1].key != key { WellFormedGet(entries[..|entries| - 1], key); }
  }

  // ---------------------------------------------------------------- main results

  /** Documents equal up to key order have the same sorted form. */
  lemma {:induction false} SameSortsAlike(v: Json, w: Json)
    requires WellFormed(v) && WellFormed(w) && Same(v, w)
    ensures SortForDeterminism(v) == SortForDeterminism(w)
    decreases v, 1, 0
  {
    match v
    case Atom(_) =>
    case Array(items) => SameItemsSortAlike(items, w.items);
    case Object(entries) => SameEntriesSortAlike(entries, w.entries);
  }

  lemma {:induction false} SameItemsSortAlike(items: seq<Json>, others: seq<Json>)
    requires |items| == |others| && WellFormedItems(items) && WellFormedItems(others) && SameItems(items, others)
    ensures SortItems(items) == SortItems(others)
    decreases items, 0, |items|
  {
    if items != [] {
      SameItemsSortAlike(items[..|items| - 1], others[..|others| - 1]);
      SameSortsAlike(items[|items| - 1], others[|others| - 1]);
    }
  }

  lemma {:induction false} SameValuesSortAlike(entries: seq<Entry>, others: seq<Entry>, key: Key)
    requires DistinctKeys(entries) && WellFormedEntries(entries) && WellFormedEntries(others) && SameEntries(entries, others)
    requires key in Keys(entries)
    ensures key in Keys(others) && SortForDeterminism(Get(entries, key)) == SortForDeterminism(Get(others, key))
    decreases entries, 0, |entries|
  {
    var last := entries[|entries| - 1];
    if last.key == key {
      SameValueSortsAlike(last, others);
    } else {
      SameValuesSortAlike(entries[..|entries| - 1], others, key);
    }
  }

  lemma {:induction false} SameValueSortsAlike(e: Entry, others: seq<Entry>)
    requires WellFormedEntry(e) && WellFormedEntries(others) && SameEntry(e, others)
    ensures SortForDeterminism(e.value) == SortForDeterminism(Get(others, e.key))
    decreases e, 0, 0
  {
    WellFormedGet(others, e.key);
    SameSortsAlike(e.value, Get(others, e.key));
  }

  lemma {:induction false} SameEntriesSortAlike(entries: seq<Entry>, others: seq<Entry>)
    requires DistinctKeys(entries) && DistinctKeys(others) && WellFormedEntries(entries) && WellFormedEntries(others)
    requires |entries| == |others| && SameEntries(entries, others)
    ensures SortEntries(entries) == SortEntries(others)
    decreases entries, 0, |entries| + 1
  {
    SameEntriesFacts(entries, others);
    KeyCount(entries);
    KeyCount(others);
    SubsetOfSameSize(Keys(entries), Keys(others));
    SortKeys(entries);
    SortKeys(others);
    forall k | k in Keys(entries) ensures Get(SortEntries(entries), k) == Get(SortEntries(others), k) {
      SortGet(entries, k);
      SortGet(others, k);
      SameValuesSortAlike(entries, others, k);
    }
    SameKeysSameList(SortEntries(entries), SortEntries(others));
  }

  /** Documents with the same sorted form are equal up to key order: sorting loses nothing else. */
  lemma {:induction false} SortedAlikeIsSame(v: Json, w: Json)
    requires WellFormed(v) && WellFormed(w) && SortForDeterminism(v) == SortForDeterminism(w)
    ensures Same(v, w)
    decreases v, 1, 0
  {
    match v
    case Atom(_) =>
    case Array(items) =>
      SortItemsLength(items, w.items);
      SortedItemsAreSame(items, w.items);
    case Object(entries) =>
      SortLength(entries);
      SortLength(w.entries);
      SortKeys(entries);
      SortKeys(w.entries);
      SortedEntriesAreSame(entries, entries, w.entries);
  }

  lemma SortItemsLength(items: seq<Json>, others: seq<Json>)
    requires SortItems(items) == SortItems(others)
    ensures |items| == |others|
  {
    assert |SortItems(items)| == |SortItems(others)|;
  }

  lemma {:induction false} SortedItemsAreSame(items: seq<Json>, others: seq<Json>)
    requires |items| == |others| && WellFormedItems(items) && WellFormedItems(others) && SortItems(items) == SortItems(others)
    ensures SameItems(items, others)
    decreases items, 0, |items|
  {
    if items != [] {
      var n := |items| - 1;
      assert SortItems(items)[..n] == SortItems(items[..n]) && SortItems(others)[..n] == SortItems(others[..n]);
      assert SortItems(items)[n] == SortForDeterminism(items[n]) && SortItems(others)[n] == SortForDeterminism(others[n]);
      SortedItemsAreSame(items[..n], others[..n]);
      SortedAlikeIsSame(items[n], others[n]);
    }
  }

  lemma {:induction false} SortedEntriesAreSame(part: seq<Entry>, entries: seq<Entry>, others: seq<Entry>)
    requires DistinctKeys(entries) && DistinctKeys(others) && DistinctKeys(part) && WellFormedEntries(part) && WellFormedEntries(others)
    requires SortEntries(entries) == SortEntries(others) && Keys(part) <= Keys(entries)
    requires forall k :: k in Keys(part) ==> Get(part, k) == Get(entries, k)
    ensures SameEntries(part, others)
    decreases part, 0, |part|
  {
    if part != [] {
      var front, last := part[..|part| - 1], part[|part| - 1];
      assert part == front + [last];
      KeysSnoc(front, last);
      SortedEntriesAreSame(front, entries, others);
      SortKeys(entries);
      SortKeys(others);
      SortGet(entries, last.key);
      SortGet(others, last.key);
      SortedEntryIsSame(last, others);
    }
  }

  lemma {:induction false} SortedEntryIsSame(e: Entry, others: seq<Entry>)
    requires WellFormedEntry(e) && WellFormedEntries(others) && e.key in Keys(others)
    requires SortForDeterminism(e.value) == SortForDeterminism(Get(others, e.key))
    ensures SameEntry(e, others)
    decreases e, 0, 0
  {
    WellFormedGet(others, e.key);
    SortedAlikeIsSame(e.value, Get(others, e.key));
  }

  /** The sorted form decides equality up to key order. */
  lemma SortDecidesSame(v: Json, w: Json)
    requires WellFormed(v) && WellFormed(w)
    ensures SortForDeterminism(v) == SortForDeterminism(w) <==> Same(v, w)
  {
    if Same(v, w) { SameSortsAlike(v, w); }
    if SortForDeterminism(v) == SortForDeterminism(w) { SortedAlikeIsSame(v, w); }
  }

  // ---------------------------------------------------------------- sorting again

  lemma {:induction false} InsertLast(e: Entry, front: seq<Entry>)
    requires forall k :: k in Keys(front) ==> k < e.key
    ensures Insert(e, front) == front + [e]
  {
    if front != [] { LastInKeys(front); }
  }

  /** Sorting is idempotent. */
  lemma {:induction false} SortingTwiceIsOnce(v: Json)
    requires WellFormed(v)
    ensures WellFormed(SortForDeterminism(v)) && SortForDeterminism(SortForDeterminism(v)) == SortForDeterminism(v)
    decreases v, 1, 0
  {
    match v
    case Atom(_) =>
    case Array(items) => ItemsTwice(items);
    case Object(entries) =>
      SortKeys(entries);
      SettledAll(entries);
      IncreasingIsDistinct(SortEntries(entries));
      SettledIsFixed(SortEntries(entries));
  }

  lemma {:induction false} ItemsTwice(items: seq<Json>)
    requires WellFormedItems(items)
    ensures WellFormedItems(SortItems(items)) && SortItems(SortItems(items)) == SortItems(items)
    decreases items, 0, |items|
  {
    if items != [] {
      var n := |items| - 1;
      ItemsTwice(items[..n]);
      SortingTwiceIsOnce(items[n]);
      assert SortItems(items)[..n] == SortItems(items[..n]);
    }
  }

  // Every value in the entries is already sorted.
  predicate Settled(entries: seq<Entry>) {
    entries == [] || (Settled(entries[..|entries| - 1]) && SettledEntry(entries[|entries| - 1]))
  }

  predicate SettledEntry(e: Entry) { WellFormed(e.value) && SortForDeterminism(e.value) == e.value }

  lemma {:induction false} InsertSettled(e: Entry, entries: seq<Entry>)
    requires Settled(entries) && SettledEntry(e)
    ensures Settled(Insert(e, entries))
  {
    if entries == [] || entries[|entries| - 1].key <= e.key {
      assert (entries + [e])[..|entries|] == entries;
    } else {
      var front, last := entries[..|entries| - 1], entries[|entries| - 1];
      InsertSettled(e, front);
      assert (Insert(e, front) + [last])[..|Insert(e, front)|] == Insert(e, front);
    }
  }

  lemma {:induction false} SettledAll(entries: seq<Entry>)
    requires WellFormedEntries(entries)
    ensures Settled(SortEntries(entries))
    decreases entries, 0, |entries|
  {
    if entries != [] {
      SettledAll(entries[..|entries| - 1]);
      EntryTwice(entries[|entries| - 1]);
      InsertSettled(SortEntry(entries[|entries| - 1]), SortEntries(entries[..|entries| - 1]));
    }
  }

  lemma {:induction false} EntryTwice(e: Entry)
    requires WellFormedEntry(e)
    ensures SettledEntry(SortEntry(e))
    decreases e, 0, 0
  {
    SortingTwiceIsOnce(e.value);
  }

  lemma {:induction false} SettledIsFixed(entries: seq<Entry>)
    requires Increasing(entries) && Settled(entries)
    ensures SortEntries(entries) == entries && WellFormedEntries(entries)
  {
    if entries != [] {
      var front, last := entries[..|entries| - 1], entries[|entries| - 1];
      SettledIsFixed(front);
      InsertLast(SortEntry(last), SortEntries(front));
      assert entries == front + [last];
    }
  }
}
