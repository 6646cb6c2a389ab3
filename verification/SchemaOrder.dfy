/**
 What a canonical form looks like, with no reference to sort keys: the one value that is equivalent to the given one and
 in ascending order throughout.
*/
module SchemaOrder {
  import opened Common
  import opened JsonText
  import opened Ordering
  import opened SchemaFixtures

  /**
   Where an element goes among elements that may change places: booleans, numbers, null, references, strings, titles,
   and within each of them by this text. A reference counts before a title.
  */
  ghost predicate Placed(v: Json, rank: nat, text: string) {
    match v
    case Bool(b) => rank == 0 && text == if b then "true" else "false"
    case Number(n) => rank == 1 && text == n
    case Null => rank == 2 && text == ""
    case String(s) => rank == 4 && text == s
    case Object(entries) =>
      || (rank == 3 && Entry("$ref", String(text)) in entries)
      || (rank == 5 && !HasText(entries, "$ref") && Entry("title", String(text)) in entries)
    case Array(_) => false
  }

  /** In order by rank, then by text, then by the whole compact text. */
  ghost predicate Precedes(x: Json, r: nat, a: string, y: Json, q: nat, b: string) {
    if r != q then r < q else if a != b then CodePointLe(a, b) else CodePointLe(Compact(x), Compact(y))
  }

  ghost predicate InOrder(x: Json, y: Json) {
    forall r, a, q, b | Placed(x, r, a) && Placed(y, q, b) :: Precedes(x, r, a, y, q, b)
  }

  ghost predicate ItemsInOrder(items: seq<Json>) {
    forall i, j | 0 <= i < j < |items| :: InOrder(items[i], items[j])
  }

  ghost predicate KeysInOrder(entries: seq<Entry>) {
    forall i, j | 0 <= i < j < |entries| :: CodePointLe(entries[i].key, entries[j].key)
  }

  /** Object keys ascend, and so do the elements of arrays whose elements may change places. */
  ghost predicate Ascending(v: Json) {
    match v
    case Array(items) =>
      (AllReorderable(items) ==> ItemsInOrder(items)) && forall i | 0 <= i < |items| :: Ascending(items[i])
    case Object(entries) => KeysInOrder(entries) && forall i | 0 <= i < |entries| :: Ascending(entries[i].value)
    case _ => true
  }

  // ---------------------------------------------------------------- sort keys

  function Prefix(rank: nat): string {
    if rank == 0 then "b:" else if rank == 1 then "n:" else if rank == 2 then "null" else if rank == 3 then "ref:"
    else if rank == 4 then "s:" else "title:"
  }

  lemma PlacedKey(v: Json, rank: nat, text: string)
    requires WellFormed(v) && Placed(v, rank, text)
    ensures rank < 6 && SortKey(v) == Some(Prefix(rank) + text)
  {
    if v.Object? {
      TextField(v.entries, "$ref");
      FieldMember(v.entries, if rank == 3 then "$ref" else "title", String(text));
    }
    assert "b:" + "true" == "b:true" && "b:" + "false" == "b:false" && "null" + "" == "null";
  }

  lemma KeyPlaced(v: Json) returns (rank: nat, text: string)
    requires WellFormed(v) && Reorderable(v)
    ensures Placed(v, rank, text)
  {
    match v
    case Bool(b) => rank, text := 0, if b then "true" else "false";
    case Number(n) => rank, text := 1, n;
    case Null => rank, text := 2, "";
    case String(s) => rank, text := 4, s;
    case Object(entries) =>
      if HasText(entries, "$ref") {
        rank := 3;
        text :| Entry("$ref", String(text)) in entries;
      } else {
        rank := 5;
        text :| Entry("title", String(text)) in entries;
      }
  }

  lemma {:induction false} LexLeBehind(p: string, a: string, b: string)
    ensures LexLe(p + a, p + b) <==> LexLe(a, b)
    ensures p + a == p + b <==> a == b
  {
    if p == "" {
      assert p + a == a && p + b == b;
    } else {
      assert (p + a)[1..] == p[1..] + a && (p + b)[1..] == p[1..] + b;
      LexLeBehind(p[1..], a, b);
      assert p + a == [p[0]] + (p[1..] + a) && p + b == [p[0]] + (p[1..] + b);
    }
  }

  /** The prefixes put the ranks in their order. */
  lemma PrefixOrder(r: nat, a: string, q: nat, b: string)
    requires r < 6 && q < 6 && r != q
    ensures Prefix(r) + a != Prefix(q) + b && (LexLe(Prefix(r) + a, Prefix(q) + b) <==> r < q)
  {
    var x, y := Prefix(r) + a, Prefix(q) + b;
    assert x[0] == Prefix(r)[0] && y[0] == Prefix(q)[0];
    assert x[1] == Prefix(r)[1] && y[1] == Prefix(q)[1];
    assert x[1..][0] == x[1] && y[1..][0] == y[1];
  }

  lemma PrecedesIff(x: Json, r: nat, a: string, y: Json, q: nat, b: string)
    requires WellFormed(x) && WellFormed(y) && Placed(x, r, a) && Placed(y, q, b)
    ensures Le(KeyItem(x), KeyItem(y)) <==> Precedes(x, r, a, y, q, b)
  {
    PlacedKey(x, r, a);
    PlacedKey(y, q, b);
    LexLeIff(a, b);
    LexLeIff(Compact(x), Compact(y));
    if r == q {
      LexLeBehind(Prefix(r), a, b);
    } else {
      PrefixOrder(r, a, q, b);
    }
  }

  /** Ordering by sort key and text is that order. */
  lemma InOrderIff(x: Json, y: Json)
    requires WellFormed(x) && WellFormed(y) && Reorderable(x) && Reorderable(y)
    ensures Le(KeyItem(x), KeyItem(y)) <==> InOrder(x, y)
  {
    forall r, a, q, b | Placed(x, r, a) && Placed(y, q, b)
      ensures Le(KeyItem(x), KeyItem(y)) <==> Precedes(x, r, a, y, q, b)
    {
      PrecedesIff(x, r, a, y, q, b);
    }
    var r, a := KeyPlaced(x);
    var q, b := KeyPlaced(y);
    assert InOrder(x, y) ==> Precedes(x, r, a, y, q, b);
  }

  lemma ItemsSortedIff(items: seq<Json>)
    requires AllWellFormed(items) && AllReorderable(items)
    ensures Sorted(Map(KeyItem, items)) <==> ItemsInOrder(items)
  {
    var keyed := Map(KeyItem, items);
    forall i, j | 0 <= i < j < |items| ensures Le(keyed[i], keyed[j]) <==> InOrder(items[i], items[j]) {
      InOrderIff(items[i], items[j]);
    }
  }

  lemma EntriesSortedIff(entries: seq<Entry>)
    ensures Sorted(Map(KeyEntry, entries)) <==> KeysInOrder(entries)
  {
    var keyed := Map(KeyEntry, entries);
    forall i, j | 0 <= i < j < |entries|
      ensures Le(keyed[i], keyed[j]) <==> CodePointLe(entries[i].key, entries[j].key)
    {
      assert keyed[i] == KeyEntry(entries[i]) && keyed[j] == KeyEntry(entries[j]);
      LexLeIff(entries[i].key, entries[j].key);
    }
  }

  // ---------------------------------------------------------------- canonical forms ascend

  lemma ArrangeInOrder(items: seq<Json>)
    requires AllWellFormed(items) && AllReorderable(items)
    ensures ItemsInOrder(Arrange(items))
  {
    SortableIff(items);
    var keyed := Map(KeyItem, items);
    var sorted, arranged := Sort(keyed), Arrange(items);
    SortSorted(keyed);
    ArrangePermutes(items);
    forall i | 0 <= i < |arranged| ensures WellFormed(arranged[i]) && Reorderable(arranged[i]) {
      SameMembers(arranged, items, arranged[i]);
    }
    forall i | 0 <= i < |sorted| ensures sorted[i] == KeyItem(arranged[i]) {
      SameMembers(sorted, keyed, sorted[i]);
      var j :| 0 <= j < |keyed| && keyed[j] == sorted[i];
      assert keyed[j] == KeyItem(items[j]) && arranged[i] == sorted[i].value;
    }
    assert Map(KeyItem, arranged) == sorted;
    ItemsSortedIff(arranged);
  }

  lemma SortEntriesInOrder(entries: seq<Entry>)
    ensures KeysInOrder(SortEntries(entries))
  {
    var keyed := Map(KeyEntry, entries);
    var sorted, result := Sort(keyed), SortEntries(entries);
    SortSorted(keyed);
    forall i | 0 <= i < |sorted| ensures sorted[i] == KeyEntry(result[i]) {
      SameMembers(sorted, keyed, sorted[i]);
      var j :| 0 <= j < |keyed| && keyed[j] == sorted[i];
      assert keyed[j] == KeyEntry(entries[j]) && result[i] == sorted[i].value;
    }
    assert Map(KeyEntry, result) == sorted;
    EntriesSortedIff(result);
  }

  lemma {:induction false} CanonAscending(v: Json)
    requires WellFormed(v)
    ensures Ascending(Canon(v))
  {
    match v
    case Array(items) =>
      var canon := CanonItems(items);
      var arranged := Arrange(canon);
      CanonItemsWellFormed(items);
      ArrangePermutes(canon);
      if AllReorderable(arranged) {
        forall i | 0 <= i < |canon| ensures Reorderable(canon[i]) {
          SameMembers(arranged, canon, canon[i]);
        }
        ArrangeInOrder(canon);
      }
      forall i | 0 <= i < |arranged| ensures Ascending(arranged[i]) {
        SameMembers(arranged, canon, arranged[i]);
        var j :| 0 <= j < |canon| && canon[j] == arranged[i];
        CanonAscending(items[j]);
      }
    case Object(entries) =>
      var canon := CanonEntries(entries);
      var sorted := SortEntries(canon);
      SortEntriesInOrder(canon);
      SortEntriesPermutes(canon);
      forall i | 0 <= i < |sorted| ensures Ascending(sorted[i].value) {
        SameMembers(sorted, canon, sorted[i]);
        var j :| 0 <= j < |canon| && canon[j] == sorted[i];
        CanonAscending(entries[j].value);
      }
    case _ =>
  }

  // ---------------------------------------------------------------- and nothing else does

  lemma SortedStays<T>(keyed: seq<Keyed<T>>)
    requires Sorted(keyed) && Determined(keyed)
    ensures Sort(keyed) == keyed
  {
    SortSorted(keyed);
    SortedUnique(keyed, Sort(keyed));
  }

  lemma ItemValues(items: seq<Json>)
    ensures Map(ValueOf(), Map(KeyItem, items)) == items
  {
    var keyed := Map(KeyItem, items);
    forall i | 0 <= i < |items| ensures Map(ValueOf(), keyed)[i] == items[i] {
      assert keyed[i] == KeyItem(items[i]);
    }
  }

  lemma EntryValues(entries: seq<Entry>)
    ensures Map(ValueOf(), Map(KeyEntry, entries)) == entries
  {
    var keyed := Map(KeyEntry, entries);
    forall i | 0 <= i < |entries| ensures Map(ValueOf(), keyed)[i] == entries[i] {
      assert keyed[i] == KeyEntry(entries[i]);
    }
  }

  lemma ItemsStay(items: seq<Json>)
    requires AllWellFormed(items) && AllReorderable(items) && ItemsInOrder(items)
    ensures Arrange(items) == items
  {
    SortableIff(items);
    ItemsSortedIff(items);
    var keyed := Map(KeyItem, items);
    ItemsDetermined(items);
    SortedStays(keyed);
    ItemValues(items);
  }

  lemma EntriesStay(entries: seq<Entry>)
    requires UniqueKeys(entries) && KeysInOrder(entries)
    ensures SortEntries(entries) == entries
  {
    EntriesSortedIff(entries);
    var keyed := Map(KeyEntry, entries);
    EntriesDetermined(entries);
    SortedStays(keyed);
    EntryValues(entries);
  }

  lemma {:induction false} AscendingStays(v: Json)
    requires WellFormed(v) && Ascending(v)
    ensures Canon(v) == v
  {
    match v
    case Array(items) =>
      forall i | 0 <= i < |items| ensures Canon(items[i]) == items[i] {
        AscendingStays(items[i]);
      }
      assert CanonItems(items) == items;
      SortableIff(items);
      if AllReorderable(items) {
        ItemsStay(items);
      }
    case Object(entries) =>
      forall i | 0 <= i < |entries| ensures CanonEntries(entries)[i] == entries[i] {
        AscendingStays(entries[i].value);
      }
      assert CanonEntries(entries) == entries;
      EntriesStay(entries);
    case _ =>
  }

  /** The canonical form is the one ascending value that is equivalent to the given one. */
  lemma CanonIsTheAscendingOne(v: Json, w: Json)
    requires WellFormed(v) && WellFormed(w)
    ensures w == Canon(v) <==> Equivalent(v, w) && Ascending(w)
  {
    CompleteInvariant(v, w);
    if w == Canon(v) {
      CanonIdempotent(v);
      CanonAscending(v);
    }
    if Ascending(w) {
      AscendingStays(w);
    }
  }
}
