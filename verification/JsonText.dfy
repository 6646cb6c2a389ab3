/**
 JSON values and their compact serialisation (`serde_json::to_string`), with a proof that distinct
 values have distinct texts. The schema fixture canonicaliser orders array elements by that text.
*/
module JsonText {

  datatype Json =
    | Null
    | Bool(b: bool)
    | Number(text: string)
    | String(s: string)
    | Array(items: seq<Json>)
    | Object(entries: seq<Entry>)

  datatype Entry = Entry(key: string, value: Json)

  // ---------------------------------------------------------------- printable values

  predicate IsDigit(c: char) {
    '0' <= c <= '9'
  }

  predicate InNumber(c: char) {
    IsDigit(c) || c == '-' || c == '+' || c == '.' || c == 'e' || c == 'E'
  }

  predicate IsNumber(text: string) {
    text != "" && (IsDigit(text[0]) || text[0] == '-') && forall i | 0 <= i < |text| :: InNumber(text[i])
  }

  /** Every number in the value looks like a number. */
  predicate Printable(v: Json) {
    match v
    case Number(text) => IsNumber(text)
    case Array(items) => forall i | 0 <= i < |items| :: Printable(items[i])
    case Object(entries) => forall i | 0 <= i < |entries| :: Printable(entries[i].value)
    case _ => true
  }

  // ---------------------------------------------------------------- compact text

  function HexDigit(n: nat): char
    requires n < 16
  {
    "0123456789abcdef"[n]
  }

  function EscapeChar(c: char): string {
    if c == '"' then "\\\""
    else if c == '\\' then "\\\\"
    else if c == '\U{0008}' then "\\b"
    else if c == '\U{000C}' then "\\f"
    else if c == '\n' then "\\n"
    else if c == '\r' then "\\r"
    else if c == '\t' then "\\t"
    else if c < ' ' then "\\u00" + [HexDigit(c as int / 16)] + [HexDigit(c as int % 16)]
    else [c]
  }

  function Escape(s: string): string {
    if s == "" then "" else EscapeChar(s[0]) + Escape(s[1..])
  }

  function Quote(s: string): string {
    "\"" + (Escape(s) + "\"")
  }

  function Compact(v: Json): string {
    match v
    case Null => "null"
    case Bool(b) => if b then "true" else "false"
    case Number(text) => text
    case String(s) => Quote(s)
    case Array(items) => "[" + if items == [] then "]" else Compact(items[0]) + CompactItems(items[1..])
    case Object(entries) => "{" + if entries == [] then "}" else CompactEntry(entries[0]) + CompactEntries(entries[1..])
  }

  /** The rest of an array after its first element. */
  function CompactItems(items: seq<Json>): string {
    if items == [] then "]" else "," + (Compact(items[0]) + CompactItems(items[1..]))
  }

  function CompactEntry(e: Entry): string {
    Quote(e.key) + (":" + Compact(e.value))
  }

  function CompactEntries(entries: seq<Entry>): string {
    if entries == [] then "}" else "," + (CompactEntry(entries[0]) + CompactEntries(entries[1..]))
  }

  // ---------------------------------------------------------------- reading back

  /** What can follow a value: nothing, or a separator. */
  predicate Delimited(rest: string) {
    rest == "" || rest[0] == ',' || rest[0] == ']' || rest[0] == '}'
  }

  lemma Cancel(p: string, a: string, b: string)
    requires p + a == p + b
    ensures a == b
  {
    assert (p + a)[|p|..] == a && (p + b)[|p|..] == b;
  }

  lemma Reassociate(a: string, b: string, c: string)
    ensures (a + b) + c == a + (b + c)
  {
  }

  lemma Reassociate3(a: string, b: string, c: string, d: string)
    ensures (a + (b + c)) + d == a + (b + (c + d))
  {
  }

  lemma HexInjective(m: nat, n: nat)
    requires m < 16 && n < 16 && HexDigit(m) == HexDigit(n)
    ensures m == n
  {
  }

  /** The codes of characters are prefix-free, and none starts with a quote. */
  lemma EscapeCharCode(c: char, d: char, r: string, t: string)
    requires EscapeChar(c) + r == EscapeChar(d) + t
    ensures c == d && r == t
  {
    var x, y := EscapeChar(c), EscapeChar(d);
    assert (x + r)[0] == x[0] && (y + t)[0] == y[0];
    if x[0] == '\\' {
      assert (x + r)[1] == x[1] && (y + t)[1] == y[1];
      if x[1] == 'u' {
        assert (x + r)[4] == x[4] && (y + t)[4] == y[4];
        assert (x + r)[5] == x[5] && (y + t)[5] == y[5];
        HexInjective(c as int / 16, d as int / 16);
        HexInjective(c as int % 16, d as int % 16);
        assert c as int == d as int;
      }
    }
    Cancel(x, r, t);
  }

  lemma {:induction false} EscapeCode(a: string, b: string, r: string, t: string)
    requires Escape(a) + ("\"" + r) == Escape(b) + ("\"" + t)
    ensures a == b && r == t
  {
    if a == "" || b == "" {
      EscapeEmpty(a, b, r, t);
      Cancel("\"", r, t);
    } else {
      Reassociate(EscapeChar(a[0]), Escape(a[1..]), "\"" + r);
      Reassociate(EscapeChar(b[0]), Escape(b[1..]), "\"" + t);
      EscapeCharCode(a[0], b[0], Escape(a[1..]) + ("\"" + r), Escape(b[1..]) + ("\"" + t));
      EscapeCode(a[1..], b[1..], r, t);
      assert a == [a[0]] + a[1..] && b == [b[0]] + b[1..];
    }
  }

  lemma EscapeHead(s: string, r: string)
    ensures s != "" ==> Escape(s) != "" && (Escape(s) + r)[0] == EscapeChar(s[0])[0] != '"'
  {
  }

  lemma EscapeEmpty(a: string, b: string, r: string, t: string)
    requires Escape(a) + ("\"" + r) == Escape(b) + ("\"" + t) && (a == "" || b == "")
    ensures a == b == "" && "\"" + r == "\"" + t
  {
    EscapeHead(a, "\"" + r);
    EscapeHead(b, "\"" + t);
    assert Escape("") + ("\"" + r) == "\"" + r && Escape("") + ("\"" + t) == "\"" + t;
  }

  lemma QuoteCode(a: string, b: string, r: string, t: string)
    requires Quote(a) + r == Quote(b) + t
    ensures a == b && r == t
  {
    assert Quote(a) + r == "\"" + (Escape(a) + ("\"" + r));
    assert Quote(b) + t == "\"" + (Escape(b) + ("\"" + t));
    Cancel("\"", Escape(a) + ("\"" + r), Escape(b) + ("\"" + t));
    EscapeCode(a, b, r, t);
  }

  lemma NumberCode(a: string, b: string, r: string, t: string)
    requires IsNumber(a) && IsNumber(b) && Delimited(r) && Delimited(t) && a + r == b + t
    ensures a == b && r == t
  {
    NumberNotLonger(a, b, r, t);
    NumberNotLonger(b, a, t, r);
    assert (a + r)[..|a|] == a && (b + t)[..|b|] == b;
    Cancel(a, r, t);
  }

  lemma NumberNotLonger(a: string, b: string, r: string, t: string)
    requires IsNumber(a) && IsNumber(b) && Delimited(r) && a + r == b + t
    ensures |b| <= |a|
  {
    assert r != "" ==> (a + r)[|a|] == r[0];
    assert forall i | 0 <= i < |b| :: (b + t)[i] == b[i];
  }

  /** The kind of a value shows in its first character, which is never a separator. */
  function Kind(v: Json): char
    requires v.Number? ==> v.text != ""
  {
    match v
    case Null => 'n'
    case Bool(b) => if b then 't' else 'f'
    case Number(text) => text[0]
    case String(_) => '"'
    case Array(_) => '['
    case Object(_) => '{'
  }

  lemma FirstChar(v: Json, r: string)
    requires Printable(v)
    ensures Compact(v) + r != "" && (Compact(v) + r)[0] == Kind(v) && !Delimited(Compact(v) + r)
  {
  }

  lemma ItemsDelimited(items: seq<Json>, r: string)
    ensures Delimited(CompactItems(items) + r)
  {
  }

  lemma EntriesDelimited(entries: seq<Entry>, r: string)
    ensures Delimited(CompactEntries(entries) + r)
  {
  }

  /** A value and what follows it can be read back from the text. */
  lemma {:induction false} CompactCode(a: Json, b: Json, r: string, t: string)
    requires Printable(a) && Printable(b) && Delimited(r) && Delimited(t) && Compact(a) + r == Compact(b) + t
    ensures a == b && r == t
    decreases a, 1
  {
    FirstChar(a, r);
    FirstChar(b, t);
    match a
    case Null => Cancel("null", r, t);
    case Bool(x) => Cancel(Compact(a), r, t);
    case Number(text) => NumberCode(text, b.text, r, t);
    case String(s) => QuoteCode(s, b.s, r, t);
    case Array(items) => ArrayCode(a, b, r, t);
    case Object(entries) => ObjectCode(a, b, r, t);
  }

  lemma {:induction false} ArrayCode(a: Json, b: Json, r: string, t: string)
    requires Printable(a) && Printable(b) && Delimited(r) && Delimited(t) && Compact(a) + r == Compact(b) + t
    requires a.Array? && b.Array?
    ensures a == b && r == t
    decreases a, 0
  {
    var xs, ys := a.items, b.items;
    var u := if xs == [] then "]" else Compact(xs[0]) + CompactItems(xs[1..]);
    var v := if ys == [] then "]" else Compact(ys[0]) + CompactItems(ys[1..]);
    Reassociate("[", u, r);
    Reassociate("[", v, t);
    Cancel("[", u + r, v + t);
    if xs == [] || ys == [] {
      BracketOrItem(xs, ys, r, t);
      Cancel("]", r, t);
    } else {
      Reassociate(Compact(xs[0]), CompactItems(xs[1..]), r);
      Reassociate(Compact(ys[0]), CompactItems(ys[1..]), t);
      ItemsDelimited(xs[1..], r);
      ItemsDelimited(ys[1..], t);
      CompactCode(xs[0], ys[0], CompactItems(xs[1..]) + r, CompactItems(ys[1..]) + t);
      ItemsCode(xs[1..], ys[1..], r, t);
      assert xs == [xs[0]] + xs[1..] && ys == [ys[0]] + ys[1..];
    }
  }

  lemma BracketOrItem(xs: seq<Json>, ys: seq<Json>, r: string, t: string)
    requires forall i | 0 <= i < |xs| :: Printable(xs[i])
    requires forall i | 0 <= i < |ys| :: Printable(ys[i])
    requires xs == [] || ys == []
    requires (if xs == [] then "]" else Compact(xs[0]) + CompactItems(xs[1..])) + r
          == (if ys == [] then "]" else Compact(ys[0]) + CompactItems(ys[1..])) + t
    ensures xs == ys == []
  {
    if xs != [] {
      Reassociate(Compact(xs[0]), CompactItems(xs[1..]), r);
      FirstChar(xs[0], CompactItems(xs[1..]) + r);
    }
    if ys != [] {
      Reassociate(Compact(ys[0]), CompactItems(ys[1..]), t);
      FirstChar(ys[0], CompactItems(ys[1..]) + t);
    }
  }

  lemma {:induction false} ItemsCode(xs: seq<Json>, ys: seq<Json>, r: string, t: string)
    requires forall i | 0 <= i < |xs| :: Printable(xs[i])
    requires forall i | 0 <= i < |ys| :: Printable(ys[i])
    requires Delimited(r) && Delimited(t) && CompactItems(xs) + r == CompactItems(ys) + t
    ensures xs == ys && r == t
    decreases xs
  {
    assert (CompactItems(xs) + r)[0] == if xs == [] then ']' else ',';
    assert (CompactItems(ys) + t)[0] == if ys == [] then ']' else ',';
    if xs == [] {
      Cancel("]", r, t);
    } else {
      var u, v := CompactItems(xs[1..]), CompactItems(ys[1..]);
      Reassociate3(",", Compact(xs[0]), u, r);
      Reassociate3(",", Compact(ys[0]), v, t);
      Cancel(",", Compact(xs[0]) + (u + r), Compact(ys[0]) + (v + t));
      ItemsDelimited(xs[1..], r);
      ItemsDelimited(ys[1..], t);
      CompactCode(xs[0], ys[0], u + r, v + t);
      ItemsCode(xs[1..], ys[1..], r, t);
      assert xs == [xs[0]] + xs[1..] && ys == [ys[0]] + ys[1..];
    }
  }

  lemma {:induction false} EntryCode(x: Entry, y: Entry, r: string, t: string)
    requires Printable(x.value) && Printable(y.value) && Delimited(r) && Delimited(t)
    requires CompactEntry(x) + r == CompactEntry(y) + t
    ensures x == y && r == t
    decreases x.value, 2
  {
    Reassociate3(Quote(x.key), ":", Compact(x.value), r);
    Reassociate3(Quote(y.key), ":", Compact(y.value), t);
    QuoteCode(x.key, y.key, ":" + (Compact(x.value) + r), ":" + (Compact(y.value) + t));
    Cancel(":", Compact(x.value) + r, Compact(y.value) + t);
    CompactCode(x.value, y.value, r, t);
  }

  lemma {:induction false} ObjectCode(a: Json, b: Json, r: string, t: string)
    requires Printable(a) && Printable(b) && Delimited(r) && Delimited(t) && Compact(a) + r == Compact(b) + t
    requires a.Object? && b.Object?
    ensures a == b && r == t
    decreases a, 0
  {
    var xs, ys := a.entries, b.entries;
    var u := if xs == [] then "}" else CompactEntry(xs[0]) + CompactEntries(xs[1..]);
    var v := if ys == [] then "}" else CompactEntry(ys[0]) + CompactEntries(ys[1..]);
    Reassociate("{", u, r);
    Reassociate("{", v, t);
    Cancel("{", u + r, v + t);
    assert (u + r)[0] == if xs == [] then '}' else '"';
    assert (v + t)[0] == if ys == [] then '}' else '"';
    if xs == [] {
      Cancel("}", r, t);
    } else {
      Reassociate(CompactEntry(xs[0]), CompactEntries(xs[1..]), r);
      Reassociate(CompactEntry(ys[0]), CompactEntries(ys[1..]), t);
      EntriesDelimited(xs[1..], r);
      EntriesDelimited(ys[1..], t);
      EntryCode(xs[0], ys[0], CompactEntries(xs[1..]) + r, CompactEntries(ys[1..]) + t);
      EntriesCode(xs[1..], ys[1..], r, t);
      assert xs == [xs[0]] + xs[1..] && ys == [ys[0]] + ys[1..];
    }
  }

  lemma {:induction false} EntriesCode(xs: seq<Entry>, ys: seq<Entry>, r: string, t: string)
    requires forall i | 0 <= i < |xs| :: Printable(xs[i].value)
    requires forall i | 0 <= i < |ys| :: Printable(ys[i].value)
    requires Delimited(r) && Delimited(t) && CompactEntries(xs) + r == CompactEntries(ys) + t
    ensures xs == ys && r == t
    decreases xs
  {
    assert (CompactEntries(xs) + r)[0] == if xs == [] then '}' else ',';
    assert (CompactEntries(ys) + t)[0] == if ys == [] then '}' else ',';
    if xs == [] {
      Cancel("}", r, t);
    } else {
      var u, v := CompactEntries(xs[1..]), CompactEntries(ys[1..]);
      Reassociate3(",", CompactEntry(xs[0]), u, r);
      Reassociate3(",", CompactEntry(ys[0]), v, t);
      Cancel(",", CompactEntry(xs[0]) + (u + r), CompactEntry(ys[0]) + (v + t));
      EntriesDelimited(xs[1..], r);
      EntriesDelimited(ys[1..], t);
      EntryCode(xs[0], ys[0], u + r, v + t);
      EntriesCode(xs[1..], ys[1..], r, t);
      assert xs == [xs[0]] + xs[1..] && ys == [ys[0]] + ys[1..];
    }
  }

  /** Distinct values have distinct compact texts. */
  lemma CompactInjective(a: Json, b: Json)
    requires Printable(a) && Printable(b) && Compact(a) == Compact(b)
    ensures a == b
  {
    assert Compact(a) + "" == Compact(a) && Compact(b) + "" == Compact(b);
    CompactCode(a, b, "", "");
  }
}
