/**
 The schema fixture canonicaliser (codex-rs/app-server-protocol/src/schema_fixtures.rs) and the
 equivalence of JSON values it decides.
*/
module SchemaFixtures {
  import opened Common
  import opened JsonPretty
  import opened JsonText
  import opened Ordering

  // ---------------------------------------------------------------- the canonicaliser

  function Field(entries: seq<Entry>, key: string): Option<Json> {
    if entries == [] then None
    else if entries[0].key == key then Some(entries[0].value) else Field(entries[1..], key)
  }

  /** `schema_array_item_sort_key`. */
  function SortKey(v: Json): Option<string> {
    match v
    case Null => Some("null")
    case Bool(b) => Some(if b then "b:true" else "b:false")
    case Number(text) => Some("n:" + text)
    case String(s) => Some("s:" + s)
    case Object(entries) =>
      (match Field(entries, "$ref")
       case Some(String(reference)) => Some("ref:" + reference)
       case _ =>
         match Field(entries, "title")
         case Some(String(title)) => Some("title:" + title)
         case _ => None)
    case Array(_) => None
  }

  predicate Sortable(items: seq<Json>) {
    forall i | 0 <= i < |items| :: SortKey(items[i]).Some?
  }

  function KeyItem(v: Json): Keyed<Json> {
    Keyed(match SortKey(v) case Some(k) => k case None => "", Compact(v), v)
  }

  function KeyEntry(e: Entry): Keyed<Entry> {
    Keyed(e.key, "", e)
  }

  function ValueOf<T>(): Keyed<T> -> T {
    (k: Keyed<T>) => k.value
  }

  function Canon(v: Json): Json {
    match v
    case Array(items) => Array(Arrange(CanonItems(items)))
    case Object(entries) => Object(SortEntries(CanonEntries(entries)))
    case _ => v
  }

  function Arrange(items: seq<Json>): seq<Json> {
    if Sortable(items) then Map(ValueOf(), Sort(Map(KeyItem, items))) else items
  }

  function SortEntries(entries: seq<Entry>): seq<Entry> {
    Map(ValueOf(), Sort(Map(KeyEntry, entries)))
  }

  function CanonItems(items: seq<Json>): (r: seq<Json>)
    ensures |r| == |items| && forall i | 0 <= i < |r| :: r[i] == Canon(items[i])
  {
    seq(|items|, i requires 0 <= i < |items| => Canon(items[i]))
  }

  function CanonEntries(entries: seq<Entry>): (r: seq<Entry>)
    ensures |r| == |entries| && forall i | 0 <= i < |r| :: r[i] == Entry(entries[i].key, Canon(entries[i].value))
  {
    seq(|entries|, i requires 0 <= i < |entries| => Entry(entries[i].key, Canon(entries[i].value)))
  }

  // ---------------------------------------------------------------- well-formed values

  function KeyOf(): Entry -> string {
    (e: Entry) => e.key
  }

  ghost predicate UniqueKeys(entries: seq<Entry>) {
    forall k :: multiset(Map(KeyOf(), entries))[k] <= 1
  }

  /** The values a parser can produce: numbers look like numbers and no object has a key twice. */
  ghost predicate WellFormed(v: Json) {
    match v
    case Number(text) => IsNumber(text)
    case Array(items) => forall i | 0 <= i < |items| :: WellFormed(items[i])
    case Object(entries) => UniqueKeys(entries) && forall i | 0 <= i < |entries| :: WellFormed(entries[i].value)
    case _ => true
  }

  lemma WellFormedPrintable(v: Json)
    requires WellFormed(v)
    ensures Printable(v)
  {
  }

  // ---------------------------------------------------------------- the equivalence

  ghost predicate HasText(entries: seq<Entry>, key: string) {
    exists text :: Entry(key, String(text)) in entries
  }

  /** What may change places in an array: a scalar, or an object with a textual `$ref` or `title`. */
  ghost predicate Reorderable(v: Json) {
    match v
    case Object(entries) => HasText(entries, "$ref") || HasText(entries, "title")
    case Array(_) => false
    case _ => true
  }

  ghost predicate AllReorderable(items: seq<Json>) {
    forall i | 0 <= i < |items| :: Reorderable(items[i])
  }

  lemma SortKeyIff(v: Json)
    requires WellFormed(v)
    ensures SortKey(v).Some? <==> Reorderable(v)
  {
    if v.Object? {
      TextField(v.entries, "$ref");
      TextField(v.entries, "title");
    }
  }

  lemma TextField(entries: seq<Entry>, key: string)
    requires UniqueKeys(entries)
    ensures HasText(entries, key) <==> Field(entries, key).Some? && Field(entries, key).value.String?
  {
    if Field(entries, key).Some? {
      FieldMember(entries, key, Field(entries, key).value);
    }
    if HasText(entries, key) {
      var text :| Entry(key, String(text)) in entries;
      FieldMember(entries, key, String(text));
    }
  }

  lemma SortableIff(items: seq<Json>)
    requires AllWellFormed(items)
    ensures Sortable(items) <==> AllReorderable(items)
  {
    forall i | 0 <= i < |items| ensures SortKey(items[i]).Some? <==> Reorderable(items[i]) {
      SortKeyIff(items[i]);
    }
  }

  /**
   Equal up to the order of object entries and the order of the elements of arrays in which every
   element may change places; the elements of other arrays are compared position by position.
  */
  ghost predicate Equivalent(a: Json, b: Json)
    decreases a, 1
  {
    match (a, b)
    case (Array(xs), Array(ys)) =>
      if AllReorderable(xs) && AllReorderable(ys) then SameItems(xs, ys)
      else |xs| == |ys| && forall i | 0 <= i < |xs| :: Equivalent(xs[i], ys[i])
    case (Object(xs), Object(ys)) => SameEntries(xs, ys)
    case _ => a == b
  }

  /** Some pairing of all the elements of xs with all the elements of ys pairs equivalent elements. */
  ghost predicate SameItems(xs: seq<Json>, ys: seq<Json>)
    decreases xs, 0
  {
    if xs == [] then ys == []
    else exists j: nat :: j < |ys| && Equivalent(xs[0], ys[j]) && SameItems(xs[1..], Without(ys, j))
  }

  ghost predicate SameEntries(xs: seq<Entry>, ys: seq<Entry>)
    decreases xs, 0
  {
    if xs == [] then ys == []
    else
      exists j: nat :: j < |ys| && xs[0].key == ys[j].key && Equivalent(xs[0].value, ys[j].value)
                       && SameEntries(xs[1..], Without(ys, j))
  }

  // ---------------------------------------------------------------- sorting by key and text

  /** Canonicalising an array keeps its elements: only their order changes. */
  lemma ArrangePermutes(items: seq<Json>)
    ensures multiset(Arrange(items)) == multiset(items)
  {
    var keyed := Map(KeyItem, items);
    MapMultiset(ValueOf(), Sort(keyed), keyed);
    assert Map(ValueOf(), keyed) == items;
  }

  lemma SortEntriesPermutes(entries: seq<Entry>)
    ensures multiset(SortEntries(entries)) == multiset(entries)
  {
    var keyed := Map(KeyEntry, entries);
    MapMultiset(ValueOf(), Sort(keyed), keyed);
    assert Map(ValueOf(), keyed) == entries;
  }

  ghost predicate AllWellFormed(items: seq<Json>) {
    forall i | 0 <= i < |items| :: WellFormed(items[i])
  }

  /** Key and text determine an element, because the text alone does. */
  lemma ItemsDetermined(items: seq<Json>)
    requires AllWellFormed(items)
    ensures Determined(Map(KeyItem, items))
  {
    var keyed := Map(KeyItem, items);
    forall x, y | x in keyed && y in keyed && SameKeys(x, y) ensures x == y {
      var i :| 0 <= i < |items| && keyed[i] == x;
      var j :| 0 <= j < |items| && keyed[j] == y;
      assert x == KeyItem(items[i]) && y == KeyItem(items[j]);
      WellFormedPrintable(items[i]);
      WellFormedPrintable(items[j]);
      CompactInjective(items[i], items[j]);
    }
  }

  lemma EntriesDetermined(entries: seq<Entry>)
    requires UniqueKeys(entries)
    ensures Determined(Map(KeyEntry, entries))
  {
    var keyed := Map(KeyEntry, entries);
    forall x, y | x in keyed && y in keyed && SameKeys(x, y) ensures x == y {
      var i :| 0 <= i < |entries| && keyed[i] == x;
      var j :| 0 <= j < |entries| && keyed[j] == y;
      assert x == KeyEntry(entries[i]) && y == KeyEntry(entries[j]);
      SameKeySameEntry(entries, entries[i], entries[j]);
    }
  }

  /** The arrangement of an array depends only on which elements it has. */
  lemma ArrangeUnique(a: seq<Json>, b: seq<Json>)
    requires multiset(a) == multiset(b) && AllWellFormed(a) && Sortable(a)
    ensures Sortable(b) && Arrange(a) == Arrange(b)
  {
    forall i | 0 <= i < |b| ensures SortKey(b[i]).Some? {
      SameMembers(a, b, b[i]);
    }
    MapMultiset(KeyItem, a, b);
    ItemsDetermined(a);
    SortUnique(Map(KeyItem, a), Map(KeyItem, b));
  }

  lemma SortEntriesUnique(a: seq<Entry>, b: seq<Entry>)
    requires multiset(a) == multiset(b) && UniqueKeys(a)
    ensures SortEntries(a) == SortEntries(b)
  {
    MapMultiset(KeyEntry, a, b);
    EntriesDetermined(a);
    SortUnique(Map(KeyEntry, a), Map(KeyEntry, b));
  }

  lemma {:induction false} SameKeySameEntry(entries: seq<Entry>, x: Entry, y: Entry)
    requires UniqueKeys(entries) && x in entries && y in entries && x.key == y.key
    ensures x == y
  {
    if entries[0] == x || entries[0] == y {
      HeadKeyUnique(entries, x);
      HeadKeyUnique(entries, y);
    } else {
      TailUnique(entries);
      SameKeySameEntry(entries[1..], x, y);
    }
  }

  lemma TailUnique(entries: seq<Entry>)
    requires entries != [] && UniqueKeys(entries)
    ensures UniqueKeys(entries[1..]) && entries[0].key !in Map(KeyOf(), entries[1..])
  {
    var keys, rest := Map(KeyOf(), entries), Map(KeyOf(), entries[1..]);
    assert keys == [entries[0].key] + rest;
    assert multiset(keys) == multiset{entries[0].key} + multiset(rest);
    forall k ensures multiset(rest)[k] <= 1 {
      assert multiset(keys)[k] <= 1;
    }
    assert multiset(keys)[entries[0].key] <= 1;
  }

  lemma HeadKeyUnique(entries: seq<Entry>, x: Entry)
    requires UniqueKeys(entries) && entries != [] && x in entries && x.key == entries[0].key
    ensures x == entries[0]
  {
    TailUnique(entries);
    var rest := entries[1..];
    assert entries == [entries[0]] + rest;
    assert forall j | 0 <= j < |rest| :: Map(KeyOf(), rest)[j] == rest[j].key;
  }

  // ---------------------------------------------------------------- what canonicalising keeps

  /** With unique keys, looking a key up finds exactly the entry that has it. */
  lemma {:induction false} FieldMember(entries: seq<Entry>, key: string, v: Json)
    requires UniqueKeys(entries)
    ensures Field(entries, key) == Some(v) <==> Entry(key, v) in entries
  {
    if entries != [] {
      TailUnique(entries);
      FieldMember(entries[1..], key, v);
      assert entries == [entries[0]] + entries[1..];
      if Entry(key, v) in entries && entries[0].key == key {
        HeadKeyUnique(entries, Entry(key, v));
      }
    }
  }

  lemma CanonEntriesUnique(entries: seq<Entry>)
    requires UniqueKeys(entries)
    ensures UniqueKeys(SortEntries(CanonEntries(entries))) && UniqueKeys(CanonEntries(entries))
  {
    assert Map(KeyOf(), CanonEntries(entries)) == Map(KeyOf(), entries);
    SortEntriesPermutes(CanonEntries(entries));
    MapMultiset(KeyOf(), SortEntries(CanonEntries(entries)), CanonEntries(entries));
  }

  /** Canonicalising an object canonicalises what each key maps to. */
  lemma CanonField(entries: seq<Entry>, key: string)
    requires UniqueKeys(entries)
    ensures Field(SortEntries(CanonEntries(entries)), key)
         == match Field(entries, key) case Some(v) => Some(Canon(v)) case None => None
  {
    var canon := CanonEntries(entries);
    var sorted := SortEntries(canon);
    CanonEntriesUnique(entries);
    SortEntriesPermutes(canon);
    match Field(entries, key)
    case Some(v) =>
      FieldMember(entries, key, v);
      var i :| 0 <= i < |entries| && entries[i] == Entry(key, v);
      assert canon[i] == Entry(key, Canon(v));
      SameMembers(sorted, canon, canon[i]);
      FieldMember(sorted, key, Canon(v));
    case None =>
      if Field(sorted, key).Some? {
        var w := Field(sorted, key).value;
        FieldMember(sorted, key, w);
        SameMembers(sorted, canon, Entry(key, w));
        var i :| 0 <= i < |canon| && canon[i] == Entry(key, w);
        FieldMember(entries, key, entries[i].value);
      }
  }

  lemma CanonKeepsSortKey(v: Json)
    requires WellFormed(v)
    ensures SortKey(Canon(v)) == SortKey(v)
  {
    if v.Object? {
      CanonField(v.entries, "$ref");
      CanonField(v.entries, "title");
    }
  }

  lemma CanonKeepsSortable(items: seq<Json>)
    requires AllWellFormed(items)
    ensures Sortable(CanonItems(items)) <==> Sortable(items)
  {
    forall i | 0 <= i < |items| ensures SortKey(CanonItems(items)[i]) == SortKey(items[i]) {
      CanonKeepsSortKey(items[i]);
    }
  }

  lemma {:induction false} CanonWellFormed(v: Json)
    requires WellFormed(v)
    ensures WellFormed(Canon(v))
  {
    match v
    case Array(items) =>
      CanonItemsWellFormed(items);
      ArrangePermutes(CanonItems(items));
      forall i | 0 <= i < |Arrange(CanonItems(items))| ensures WellFormed(Arrange(CanonItems(items))[i]) {
        SameMembers(Arrange(CanonItems(items)), CanonItems(items), Arrange(CanonItems(items))[i]);
      }
    case Object(entries) =>
      var canon := CanonEntries(entries);
      CanonEntriesUnique(entries);
      SortEntriesPermutes(canon);
      forall i | 0 <= i < |canon| ensures WellFormed(canon[i].value) {
        CanonWellFormed(entries[i].value);
      }
      forall i | 0 <= i < |SortEntries(canon)| ensures WellFormed(SortEntries(canon)[i].value) {
        SameMembers(SortEntries(canon), canon, SortEntries(canon)[i]);
      }
    case _ =>
  }

  lemma {:induction false} CanonItemsWellFormed(items: seq<Json>)
    requires AllWellFormed(items)
    ensures AllWellFormed(CanonItems(items))
  {
    forall i | 0 <= i < |items| ensures WellFormed(CanonItems(items)[i]) {
      CanonWellFormed(items[i]);
    }
  }

  // ---------------------------------------------------------------- equivalent values have one canonical form

  ghost predicate AllEntriesWellFormed(entries: seq<Entry>) {
    forall i | 0 <= i < |entries| :: WellFormed(entries[i].value)
  }

  lemma {:induction false} EquivalentCanon(a: Json, b: Json)
    requires WellFormed(a) && WellFormed(b) && Equivalent(a, b)
    ensures Canon(a) == Canon(b)
    decreases a, 1
  {
    match (a, b)
    case (Array(xs), Array(ys)) =>
      SortableIff(xs);
      SortableIff(ys);
      if Sortable(xs) && Sortable(ys) {
        SameItemsCanon(xs, ys);
        CanonItemsWellFormed(xs);
        CanonKeepsSortable(xs);
        ArrangeUnique(CanonItems(xs), CanonItems(ys));
      } else {
        forall i | 0 <= i < |xs| ensures Canon(xs[i]) == Canon(ys[i]) {
          EquivalentCanon(xs[i], ys[i]);
        }
        assert CanonItems(xs) == CanonItems(ys);
      }
    case (Object(xs), Object(ys)) =>
      SameEntriesCanon(xs, ys);
      CanonEntriesUnique(xs);
      SortEntriesUnique(CanonEntries(xs), CanonEntries(ys));
    case _ =>
  }

  lemma PairOfFirst(xs: seq<Json>, ys: seq<Json>) returns (j: nat)
    requires xs != [] && SameItems(xs, ys) && AllWellFormed(ys)
    ensures j < |ys| && Equivalent(xs[0], ys[j]) && SameItems(xs[1..], Without(ys, j)) && AllWellFormed(Without(ys, j))
  {
    j :| j < |ys| && Equivalent(xs[0], ys[j]) && SameItems(xs[1..], Without(ys, j));
  }

  lemma PairOfFirstEntry(xs: seq<Entry>, ys: seq<Entry>) returns (j: nat)
    requires xs != [] && SameEntries(xs, ys) && AllEntriesWellFormed(ys)
    ensures j < |ys| && xs[0].key == ys[j].key && Equivalent(xs[0].value, ys[j].value)
    ensures SameEntries(xs[1..], Without(ys, j)) && AllEntriesWellFormed(Without(ys, j))
  {
    j :| j < |ys| && xs[0].key == ys[j].key && Equivalent(xs[0].value, ys[j].value)
         && SameEntries(xs[1..], Without(ys, j));
  }

  /**
   Taking a pair of elements with one canonical form away leaves the canonical multisets equal or unequal as they
   were.
  */
  lemma ItemPaired(xs: seq<Json>, ys: seq<Json>, j: nat)
    requires xs != [] && j < |ys| && Canon(xs[0]) == Canon(ys[j])
    ensures multiset(CanonItems(xs)) == multiset(CanonItems(ys))
       <==> multiset(CanonItems(xs[1..])) == multiset(CanonItems(Without(ys, j)))
  {
    CanonItemsWithout(ys, j);
    CanonItemsWithout(xs, 0);
    WithoutMultiset(CanonItems(ys), j);
    WithoutMultiset(CanonItems(xs), 0);
    assert Without(xs, 0) == xs[1..];
    CancelElement(CanonItems(xs[1..]), Without(CanonItems(ys), j), Canon(xs[0]));
  }

  lemma EntryPaired(xs: seq<Entry>, ys: seq<Entry>, j: nat)
    requires xs != [] && j < |ys| && CanonEntries(xs)[0] == CanonEntries(ys)[j]
    ensures multiset(CanonEntries(xs)) == multiset(CanonEntries(ys))
       <==> multiset(CanonEntries(xs[1..])) == multiset(CanonEntries(Without(ys, j)))
  {
    CanonEntriesWithout(ys, j);
    CanonEntriesWithout(xs, 0);
    WithoutMultiset(CanonEntries(ys), j);
    WithoutMultiset(CanonEntries(xs), 0);
    assert Without(xs, 0) == xs[1..];
    CancelElement(CanonEntries(xs[1..]), Without(CanonEntries(ys), j), CanonEntries(xs)[0]);
  }

  lemma CanonItemsMap(items: seq<Json>)
    ensures CanonItems(items) == Map(Canon, items)
  {
  }

  lemma CanonItemsWithout(ys: seq<Json>, j: nat)
    requires j < |ys|
    ensures CanonItems(Without(ys, j)) == Without(CanonItems(ys), j)
  {
    CanonItemsMap(ys);
    CanonItemsMap(Without(ys, j));
    MapWithout(Canon, ys, j);
  }

  function CanonEntry(e: Entry): Entry {
    Entry(e.key, Canon(e.value))
  }

  lemma CanonEntriesMap(entries: seq<Entry>)
    ensures CanonEntries(entries) == Map(CanonEntry, entries)
  {
    forall i | 0 <= i < |entries| ensures CanonEntries(entries)[i] == Map(CanonEntry, entries)[i] {
      assert Map(CanonEntry, entries)[i] == CanonEntry(entries[i]);
    }
  }

  lemma CanonEntriesWithout(ys: seq<Entry>, j: nat)
    requires j < |ys|
    ensures CanonEntries(Without(ys, j)) == Without(CanonEntries(ys), j)
  {
    CanonEntriesMap(ys);
    CanonEntriesMap(Without(ys, j));
    MapWithout(CanonEntry, ys, j);
  }

  lemma CancelElement<T>(a: seq<T>, b: seq<T>, x: T)
    ensures multiset(a) + multiset{x} == multiset(b) + multiset{x} <==> multiset(a) == multiset(b)
  {
    assert multiset(a) == (multiset(a) + multiset{x}) - multiset{x};
    assert multiset(b) == (multiset(b) + multiset{x}) - multiset{x};
  }

  lemma {:induction false} SameItemsCanon(xs: seq<Json>, ys: seq<Json>)
    requires AllWellFormed(xs) && AllWellFormed(ys) && SameItems(xs, ys)
    ensures multiset(CanonItems(xs)) == multiset(CanonItems(ys))
    decreases xs, 0
  {
    if xs != [] {
      var j := PairOfFirst(xs, ys);
      EquivalentCanon(xs[0], ys[j]);
      SameItemsCanon(xs[1..], Without(ys, j));
      ItemPaired(xs, ys, j);
    }
  }

  lemma {:induction false} SameEntriesCanon(xs: seq<Entry>, ys: seq<Entry>)
    requires AllEntriesWellFormed(xs) && AllEntriesWellFormed(ys) && SameEntries(xs, ys)
    ensures multiset(CanonEntries(xs)) == multiset(CanonEntries(ys))
    decreases xs, 0
  {
    if xs != [] {
      var j := PairOfFirstEntry(xs, ys);
      EquivalentCanon(xs[0].value, ys[j].value);
      SameEntriesCanon(xs[1..], Without(ys, j));
      EntryPaired(xs, ys, j);
    }
  }

  // ---------------------------------------------------------------- and values with one canonical form are equivalent

  lemma {:induction false} CanonEquivalent(a: Json, b: Json)
    requires WellFormed(a) && WellFormed(b) && Canon(a) == Canon(b)
    ensures Equivalent(a, b)
    decreases a, 1
  {
    match a
    case Array(xs) =>
      var ys := b.items;
      SortableIff(xs);
      SortableIff(ys);
      CanonKeepsSortable(xs);
      CanonKeepsSortable(ys);
      ArrangePermutes(CanonItems(xs));
      ArrangePermutes(CanonItems(ys));
      if Sortable(xs) && Sortable(ys) {
        CanonSameItems(xs, ys);
      } else {
        SameArrangement(CanonItems(xs), CanonItems(ys));
        forall i | 0 <= i < |xs| ensures Equivalent(xs[i], ys[i]) {
          assert CanonItems(xs)[i] == CanonItems(ys)[i];
          CanonEquivalent(xs[i], ys[i]);
        }
      }
    case Object(xs) =>
      SortEntriesPermutes(CanonEntries(xs));
      SortEntriesPermutes(CanonEntries(b.entries));
      CanonSameEntries(xs, b.entries);
    case _ =>
  }

  /** A sorted array and an array left in place never coincide: one has a key for every element. */
  lemma SameArrangement(cx: seq<Json>, cy: seq<Json>)
    requires Arrange(cx) == Arrange(cy) && !(Sortable(cx) && Sortable(cy))
    ensures cx == cy
  {
    ArrangePermutes(cx);
    ArrangePermutes(cy);
    forall x ensures x in cx <==> x in cy {
      SameMembers(cx, cy, x);
    }
    if Sortable(cx) {
      forall i | 0 <= i < |cy| ensures SortKey(cy[i]).Some? {
        assert cy[i] in cx;
      }
    }
    if Sortable(cy) {
      forall i | 0 <= i < |cx| ensures SortKey(cx[i]).Some? {
        assert cx[i] in cy;
      }
    }
  }

  lemma {:induction false} CanonSameItems(xs: seq<Json>, ys: seq<Json>)
    requires AllWellFormed(xs) && AllWellFormed(ys) && multiset(CanonItems(xs)) == multiset(CanonItems(ys))
    ensures SameItems(xs, ys)
    decreases xs, 0
  {
    if xs == [] {
      assert |multiset(CanonItems(ys))| == 0;
    } else {
      var j := TakeCommon(CanonItems(xs), CanonItems(ys));
      CanonEquivalent(xs[0], ys[j]);
      ItemPaired(xs, ys, j);
      CanonSameItems(xs[1..], Without(ys, j));
    }
  }

  lemma {:induction false} CanonSameEntries(xs: seq<Entry>, ys: seq<Entry>)
    requires AllEntriesWellFormed(xs) && AllEntriesWellFormed(ys)
    requires multiset(CanonEntries(xs)) == multiset(CanonEntries(ys))
    ensures SameEntries(xs, ys)
    decreases xs, 0
  {
    if xs == [] {
      assert |multiset(CanonEntries(ys))| == 0;
    } else {
      var j := TakeCommon(CanonEntries(xs), CanonEntries(ys));
      EntryPaired(xs, ys, j);
      CanonSameEntries(xs[1..], Without(ys, j));
      CanonEquivalent(xs[0].value, ys[j].value);
    }
  }

  // ---------------------------------------------------------------- main results

  /** The canonical form is a complete invariant: it is shared exactly by the equivalent values. */
  lemma CompleteInvariant(a: Json, b: Json)
    requires WellFormed(a) && WellFormed(b)
    ensures Canon(a) == Canon(b) <==> Equivalent(a, b)
  {
    if Canon(a) == Canon(b) {
      CanonEquivalent(a, b);
    }
    if Equivalent(a, b) {
      EquivalentCanon(a, b);
    }
  }

  /** So are the indented texts, which is what the fixture comparison looks at. */
  lemma FixturesMatchIff(a: Json, b: Json)
    requires WellFormed(a) && WellFormed(b)
    ensures Pretty(Canon(a), 0) == Pretty(Canon(b), 0) <==> Equivalent(a, b)
  {
    CompleteInvariant(a, b);
    CanonWellFormed(a);
    CanonWellFormed(b);
    WellFormedPrintable(Canon(a));
    WellFormedPrintable(Canon(b));
    if Pretty(Canon(a), 0) == Pretty(Canon(b), 0) {
      PrettyInjective(Canon(a), Canon(b));
    }
  }

  lemma EquivalenceRelation(a: Json, b: Json, c: Json)
    requires WellFormed(a) && WellFormed(b) && WellFormed(c)
    ensures Equivalent(a, a)
    ensures Equivalent(a, b) ==> Equivalent(b, a)
    ensures Equivalent(a, b) && Equivalent(b, c) ==> Equivalent(a, c)
  {
    CompleteInvariant(a, a);
    CompleteInvariant(a, b);
    CompleteInvariant(b, a);
    CompleteInvariant(b, c);
    CompleteInvariant(a, c);
  }

  /** Every value is equivalent to its canonical form, which is its own. */
  lemma {:induction false} CanonIdempotent(v: Json)
    requires WellFormed(v)
    ensures Canon(Canon(v)) == Canon(v) && Equivalent(v, Canon(v))
  {
    CanonTwice(v);
    CanonWellFormed(v);
    CompleteInvariant(v, Canon(v));
  }

  lemma {:induction false} CanonTwice(v: Json)
    requires WellFormed(v)
    ensures Canon(Canon(v)) == Canon(v)
  {
    match v
    case Array(items) =>
      var canon := CanonItems(items);
      var arranged := Arrange(canon);
      ArrangePermutes(canon);
      forall i | 0 <= i < |arranged| ensures Canon(arranged[i]) == arranged[i] {
        SameMembers(arranged, canon, arranged[i]);
        var j :| 0 <= j < |canon| && canon[j] == arranged[i];
        CanonTwice(items[j]);
      }
      assert CanonItems(arranged) == arranged;
      CanonItemsWellFormed(items);
      if Sortable(canon) {
        ArrangeUnique(canon, arranged);
      }
    case Object(entries) =>
      var canon := CanonEntries(entries);
      var sorted := SortEntries(canon);
      SortEntriesPermutes(canon);
      forall i | 0 <= i < |sorted| ensures CanonEntries(sorted)[i] == sorted[i] {
        SameMembers(sorted, canon, sorted[i]);
        var j :| 0 <= j < |canon| && canon[j] == sorted[i];
        CanonTwice(entries[j].value);
      }
      assert CanonEntries(sorted) == sorted;
      CanonEntriesUnique(entries);
      SortEntriesUnique(canon, sorted);
    case _ =>
  }

  // ---------------------------------------------------------------- the loops of the source

  function CanonKeyed(): Keyed<Entry> -> Keyed<Entry> {
    (k: Keyed<Entry>) => k.(value := Entry(k.value.key, Canon(k.value.value)))
  }

  lemma CanonValues(keyed: seq<Keyed<Entry>>)
    ensures Map(ValueOf(), Map(CanonKeyed(), keyed)) == CanonEntries(Map(ValueOf(), keyed))
  {
  }

  lemma CanonKeys(entries: seq<Entry>)
    ensures Map(CanonKeyed(), Map(KeyEntry, entries)) == Map(KeyEntry, CanonEntries(entries))
  {
    var left, right := Map(CanonKeyed(), Map(KeyEntry, entries)), Map(KeyEntry, CanonEntries(entries));
    forall i | 0 <= i < |entries| ensures left[i] == right[i] {
      assert left[i] == CanonKeyed()(KeyEntry(entries[i]));
      assert right[i] == KeyEntry(CanonEntries(entries)[i]);
    }
  }

  /** Entries can be canonicalised before or after they are sorted. */
  lemma SortThenCanon(entries: seq<Entry>)
    ensures CanonEntries(SortEntries(entries)) == SortEntries(CanonEntries(entries))
  {
    SortMap(CanonKeyed(), Map(KeyEntry, entries));
    CanonKeys(entries);
    CanonValues(Sort(Map(KeyEntry, entries)));
  }

  method CanonicalizeJson(v: Json) returns (c: Json)
    ensures c == Canon(v)
    decreases v
  {
    match v
    case Array(items) =>
      var mapped := CanonicalizeItems(items);
      mapped := SortItems(mapped);
      c := Array(mapped);
    case Object(entries) =>
      var result := CanonicalizeEntries(entries);
      c := Object(result);
    case _ =>
      c := v;
  }

  method CanonicalizeItems(items: seq<Json>) returns (mapped: seq<Json>)
    ensures mapped == CanonItems(items)
    decreases items
  {
    mapped := [];
    ghost var all := CanonItems(items);
    for i := 0 to |items|
      invariant mapped == all[..i]
    {
      var item := CanonicalizeJson(items[i]);
      mapped := mapped + [item];
      TakeNext(all, i);
    }
    assert all[..|items|] == all;
  }

  /** Gives up on the first element without a sort key. */
  method SortItems(items: seq<Json>) returns (arranged: seq<Json>)
    ensures arranged == Arrange(items)
  {
    var sortable: seq<Keyed<Json>> := [];
    for i := 0 to |items|
      invariant sortable == Map(KeyItem, items[..i])
      invariant forall k | 0 <= k < i :: SortKey(items[k]).Some?
    {
      var key := SortKey(items[i]);
      if key.None? {
        return items;
      }
      sortable := sortable + [Keyed(key.value, Compact(items[i]), items[i])];
      assert Map(KeyItem, [items[i]]) == [KeyItem(items[i])];
      assert items[..i + 1] == items[..i] + [items[i]];
      MapConcat(KeyItem, items[..i], [items[i]]);
    }
    assert items[..|items|] == items;
    arranged := Map(ValueOf(), Sort(sortable));
  }

  method CanonicalizeEntries(entries: seq<Entry>) returns (result: seq<Entry>)
    ensures result == SortEntries(CanonEntries(entries))
    decreases entries
  {
    var sorted := SortEntries(entries);
    SortEntriesPermutes(entries);
    SortThenCanon(entries);
    result := [];
    ghost var all := CanonEntries(sorted);
    for i := 0 to |sorted|
      invariant result == all[..i]
    {
      SameMembers(sorted, entries, sorted[i]);
      var child := CanonicalizeJson(sorted[i].value);
      result := result + [Entry(sorted[i].key, child)];
      TakeNext(all, i);
    }
    assert all[..|sorted|] == all;
  }
}
