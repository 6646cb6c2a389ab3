/** Sorting of keyed elements, as `slice::sort_by` does it for the schema fixtures. */
module Ordering {
  import opened Common

  /** `str::cmp`: byte order of UTF-8, which is code point order. */
  predicate LexLe(a: string, b: string) {
    a == "" || (b != "" && (a[0] < b[0] || (a[0] == b[0] && LexLe(a[1..], b[1..]))))
  }

  /** Code point order, with no reference to how it is decided: a prefix, or smaller where they first differ. */
  ghost predicate CodePointLe(a: string, b: string) {
    a <= b || exists k: nat :: k < |a| && k < |b| && a[..k] == b[..k] && a[k] < b[k]
  }

  lemma {:induction false} LexLeIff(a: string, b: string)
    ensures LexLe(a, b) <==> CodePointLe(a, b)
  {
    if a != "" && b != "" && a[0] == b[0] {
      LexLeIff(a[1..], b[1..]);
      LexLeTails(a, b);
    } else if a != "" && b != "" && a[0] < b[0] {
      assert a[..0] == b[..0];
    }
  }

  lemma LexLeTails(a: string, b: string)
    requires a != "" && b != "" && a[0] == b[0]
    ensures CodePointLe(a, b) <==> CodePointLe(a[1..], b[1..])
  {
    assert a == [a[0]] + a[1..] && b == [b[0]] + b[1..];
    if CodePointLe(a, b) && !(a <= b) {
      var k: nat :| k < |a| && k < |b| && a[..k] == b[..k] && a[k] < b[k];
      assert a[1..][..k - 1] == a[..k][1..] && b[1..][..k - 1] == b[..k][1..];
    }
    if CodePointLe(a[1..], b[1..]) && !(a[1..] <= b[1..]) {
      var k: nat :| k < |a[1..]| && k < |b[1..]| && a[1..][..k] == b[1..][..k] && a[1..][k] < b[1..][k];
      assert a[..k + 1] == [a[0]] + a[1..][..k] && b[..k + 1] == [b[0]] + b[1..][..k];
    }
  }

  lemma {:induction false} LexAntisymmetric(a: string, b: string)
    requires LexLe(a, b) && LexLe(b, a)
    ensures a == b
  {
    if a != "" {
      LexAntisymmetric(a[1..], b[1..]);
      assert a == [a[0]] + a[1..] && b == [b[0]] + b[1..];
    }
  }

  lemma {:induction false} LexTotal(a: string, b: string)
    ensures LexLe(a, b) || LexLe(b, a)
  {
    if a != "" && b != "" && a[0] == b[0] {
      LexTotal(a[1..], b[1..]);
    }
  }

  lemma {:induction false} LexTransitive(a: string, b: string, c: string)
    requires LexLe(a, b) && LexLe(b, c)
    ensures LexLe(a, c)
  {
    if a != "" && a[0] == b[0] == c[0] {
      LexTransitive(a[1..], b[1..], c[1..]);
    }
  }

  /** An element with the two keys it is ordered by. */
  datatype Keyed<T> = Keyed(major: string, minor: string, value: T)

  predicate Le<T>(x: Keyed<T>, y: Keyed<T>) {
    if x.major == y.major then LexLe(x.minor, y.minor) else LexLe(x.major, y.major)
  }

  predicate SameKeys<T>(x: Keyed<T>, y: Keyed<T>) {
    x.major == y.major && x.minor == y.minor
  }

  lemma LeTotal<T>(x: Keyed<T>, y: Keyed<T>)
    ensures Le(x, y) || Le(y, x)
  {
    LexTotal(x.major, y.major);
    LexTotal(x.minor, y.minor);
  }

  lemma LeAntisymmetric<T>(x: Keyed<T>, y: Keyed<T>)
    requires Le(x, y) && Le(y, x)
    ensures SameKeys(x, y)
  {
    if x.major == y.major {
      LexAntisymmetric(x.minor, y.minor);
    } else {
      LexAntisymmetric(x.major, y.major);
    }
  }

  lemma LeTransitive<T>(x: Keyed<T>, y: Keyed<T>, z: Keyed<T>)
    requires Le(x, y) && Le(y, z)
    ensures Le(x, z)
  {
    if x.major == y.major == z.major {
      LexTransitive(x.minor, y.minor, z.minor);
    } else if x.major != y.major && y.major != z.major {
      LexTransitive(x.major, y.major, z.major);
      if x.major == z.major {
        LexAntisymmetric(x.major, y.major);
      }
    }
  }

  ghost predicate Sorted<T>(s: seq<Keyed<T>>) {
    forall i, j | 0 <= i < j < |s| :: Le(s[i], s[j])
  }

  function Insert<T>(x: Keyed<T>, s: seq<Keyed<T>>): (r: seq<Keyed<T>>)
    ensures multiset(r) == multiset(s) + multiset{x}
  {
    if s == [] then [x]
    else if Le(x, s[0]) then
      assert s == [s[0]] + s[1..];
      [x] + s
    else
      assert s == [s[0]] + s[1..];
      [s[0]] + Insert(x, s[1..])
  }

  function Sort<T>(s: seq<Keyed<T>>): (r: seq<Keyed<T>>)
    ensures multiset(r) == multiset(s)
  {
    if s == [] then []
    else
      assert s == [s[0]] + s[1..];
      Insert(s[0], Sort(s[1..]))
  }

  lemma {:induction false} InsertSorted<T>(x: Keyed<T>, s: seq<Keyed<T>>)
    requires Sorted(s)
    ensures Sorted(Insert(x, s))
  {
    if s != [] {
      if Le(x, s[0]) {
        forall j | 0 <= j < |s| ensures Le(x, s[j]) {
          if j > 0 {
            LeTransitive(x, s[0], s[j]);
          }
        }
      } else {
        LeTotal(x, s[0]);
        InsertSorted(x, s[1..]);
        var rest := Insert(x, s[1..]);
        forall j | 0 <= j < |rest| ensures Le(s[0], rest[j]) {
          assert rest[j] in multiset(rest);
          if rest[j] != x {
            assert rest[j] in s[1..];
          }
        }
      }
    }
  }

  lemma {:induction false} SortSorted<T>(s: seq<Keyed<T>>)
    ensures Sorted(Sort(s))
  {
    if s != [] {
      SortSorted(s[1..]);
      InsertSorted(s[0], Sort(s[1..]));
    }
  }

  /** Elements with the same keys are the same element. */
  ghost predicate Determined<T>(s: seq<Keyed<T>>) {
    forall x, y | x in s && y in s && SameKeys(x, y) :: x == y
  }

  lemma TailOf<T>(s: seq<Keyed<T>>)
    requires s != [] && Sorted(s)
    ensures Sorted(s[1..]) && multiset(s[1..]) == multiset(s) - multiset{s[0]} && forall x | x in s[1..] :: x in s
  {
    assert s == [s[0]] + s[1..];
  }

  /** A sorted arrangement of determined elements is unique. */
  lemma {:induction false} SortedUnique<T>(a: seq<Keyed<T>>, b: seq<Keyed<T>>)
    requires Sorted(a) && Sorted(b) && multiset(a) == multiset(b) && Determined(a)
    ensures a == b
  {
    if a == [] {
      assert |multiset(b)| == 0;
    } else {
      HeadsAgree(a, b);
      TailOf(a);
      TailOf(b);
      SortedUnique(a[1..], b[1..]);
      assert a == [a[0]] + a[1..] && b == [b[0]] + b[1..];
    }
  }

  lemma HeadsAgree<T>(a: seq<Keyed<T>>, b: seq<Keyed<T>>)
    requires Sorted(a) && Sorted(b) && multiset(a) == multiset(b) && Determined(a) && a != []
    ensures b != [] && a[0] == b[0]
  {
    assert |multiset(a)| == |multiset(b)|;
    assert a[0] in multiset(b) && b[0] in multiset(a);
    HeadLeast(a, b[0]);
    HeadLeast(b, a[0]);
    LeAntisymmetric(a[0], b[0]);
  }

  lemma HeadLeast<T>(s: seq<Keyed<T>>, x: Keyed<T>)
    requires Sorted(s) && x in multiset(s)
    ensures Le(s[0], x)
  {
    LeTotal(x, x);
  }

  /** Sorting depends only on the elements, not on the order they come in. */
  lemma SortUnique<T>(a: seq<Keyed<T>>, b: seq<Keyed<T>>)
    requires multiset(a) == multiset(b) && Determined(a)
    ensures Sort(a) == Sort(b)
  {
    SortSorted(a);
    SortSorted(b);
    forall x | x in Sort(a) ensures x in a {
      assert x in multiset(Sort(a));
    }
    SortedUnique(Sort(a), Sort(b));
  }

  /** Sorting only looks at the keys: changing the values before or after makes no difference. */
  lemma {:induction false} SortMap<T(!new), U>(f: Keyed<T> -> Keyed<U>, s: seq<Keyed<T>>)
    requires forall k :: f(k).major == k.major && f(k).minor == k.minor
    ensures Map(f, Sort(s)) == Sort(Map(f, s))
  {
    if s != [] {
      SortMap(f, s[1..]);
      InsertMap(f, s[0], Sort(s[1..]));
      MapTail(f, s);
    } else {
      assert Map(f, s) == [];
    }
  }

  lemma MapTail<A, B>(f: A -> B, s: seq<A>)
    requires s != []
    ensures Map(f, s)[0] == f(s[0]) && Map(f, s)[1..] == Map(f, s[1..]) && Map(f, s) == [f(s[0])] + Map(f, s[1..])
  {
  }

  lemma MapCons<A, B>(f: A -> B, x: A, s: seq<A>)
    ensures Map(f, [x] + s) == [f(x)] + Map(f, s)
  {
    MapTail(f, [x] + s);
    assert ([x] + s)[1..] == s;
  }

  lemma {:induction false} InsertMap<T(!new), U>(f: Keyed<T> -> Keyed<U>, x: Keyed<T>, s: seq<Keyed<T>>)
    requires forall k :: f(k).major == k.major && f(k).minor == k.minor
    ensures Map(f, Insert(x, s)) == Insert(f(x), Map(f, s))
  {
    if s == [] {
      assert Map(f, s) == [] && Map(f, [x]) == [f(x)];
    } else {
      MapTail(f, s);
      assert Le(f(x), f(s[0])) == Le(x, s[0]);
      if Le(x, s[0]) {
        MapCons(f, x, s);
      } else {
        MapCons(f, s[0], Insert(x, s[1..]));
        InsertMap(f, x, s[1..]);
      }
    }
  }
}
