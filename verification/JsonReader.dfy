/**
 A reader of JSON text after RFC 8259, without blanks between the tokens, and the proof that it gives back every value
 from its compact text.
*/
module JsonReader {
  import opened JsonText

  // ---------------------------------------------------------------- strings

  datatype Reading = Failed | Read(text: string, rest: string)

  function HexValue(c: char): int {
    if '0' <= c <= '9' then c as int - '0' as int
    else if 'a' <= c <= 'f' then c as int - 'a' as int + 10
    else if 'A' <= c <= 'F' then c as int - 'A' as int + 10
    else -1
  }

  /** The character a one-letter escape stands for. */
  function Escaped(c: char): string {
    match c
    case '"' => "\""
    case '\\' => "\\"
    case '/' => "/"
    case 'b' => "\U{0008}"
    case 'f' => "\U{000C}"
    case 'n' => "\n"
    case 'r' => "\r"
    case 't' => "\t"
    case _ => ""
  }

  function Before(text: string, r: Reading): Reading {
    if r.Read? then Read(text + r.text, r.rest) else Failed
  }

  function ReadHex(digits: string): string
    requires |digits| == 4
  {
    var a, b, c, d := HexValue(digits[0]), HexValue(digits[1]), HexValue(digits[2]), HexValue(digits[3]);
    var code := 4096 * a + 256 * b + 16 * c + d;
    if a < 0 || b < 0 || c < 0 || d < 0 || 0xD800 <= code < 0xE000 then "" else [code as char]
  }

  /** What stands between here and the closing quote, and what follows it. */
  function ReadString(text: string): (r: Reading)
    ensures r.Read? ==> |r.rest| < |text|
  {
    if text == "" || text[0] < ' ' then Failed
    else if text[0] == '"' then Read("", text[1..])
    else if text[0] != '\\' then Before([text[0]], ReadString(text[1..]))
    else if |text| > 5 && text[1] == 'u' then
      (if ReadHex(text[2..6]) == "" then Failed else Before(ReadHex(text[2..6]), ReadString(text[6..])))
    else if |text| > 1 && Escaped(text[1]) != "" then Before(Escaped(text[1]), ReadString(text[2..]))
    else Failed
  }

  lemma ReadControl(c: char, rest: string)
    requires c < ' '
    ensures var text := "\\u00" + [HexDigit(c as int / 16)] + [HexDigit(c as int % 16)] + rest;
            ReadString(text) == Before([c], ReadString(rest))
  {
    var high, low := HexDigit(c as int / 16), HexDigit(c as int % 16);
    var text := "\\u00" + [high] + [low] + rest;
    assert text[0] == '\\' && text[1] == 'u' && text[2..6] == "00" + [high] + [low] && text[6..] == rest;
    HexRead(c as int / 16);
    HexRead(c as int % 16);
    assert ReadHex(text[2..6]) == [c];
  }

  lemma HexRead(n: nat)
    requires n < 16
    ensures HexValue(HexDigit(n)) == n
  {
  }

  lemma ReadPlain(c: char, rest: string)
    requires c >= ' ' && c != '"' && c != '\\'
    ensures ReadString([c] + rest) == Before([c], ReadString(rest))
  {
    assert ([c] + rest)[1..] == rest;
  }

  lemma ReadShort(c: char, rest: string)
    requires c != 'u' && Escaped(c) != ""
    ensures ReadString(['\\', c] + rest) == Before(Escaped(c), ReadString(rest))
  {
    var text := ['\\', c] + rest;
    assert text[0] == '\\' && text[1] == c && text[2..] == rest;
  }

  lemma ReadEscapedChar(c: char, rest: string)
    ensures ReadString(EscapeChar(c) + rest) == Before([c], ReadString(rest))
  {
    var code := EscapeChar(c);
    if |code| == 1 {
      ReadPlain(c, rest);
    } else if |code| == 2 {
      assert code == ['\\', code[1]] && Escaped(code[1]) == [c];
      ReadShort(code[1], rest);
    } else {
      ReadControl(c, rest);
    }
  }

  lemma {:induction false} ReadEscaped(s: string, rest: string)
    ensures ReadString(Escape(s) + ("\"" + rest)) == Read(s, rest)
  {
    if s == "" {
      assert Escape(s) + ("\"" + rest) == "\"" + rest && ("\"" + rest)[1..] == rest;
    } else {
      ReadEscaped(s[1..], rest);
      Reassociate(EscapeChar(s[0]), Escape(s[1..]), "\"" + rest);
      ReadEscapedChar(s[0], Escape(s[1..]) + ("\"" + rest));
      assert s == [s[0]] + s[1..];
    }
  }

  /** Reading a quoted text gives it back, whatever follows. */
  lemma ReadQuoted(s: string, rest: string)
    ensures var text := Quote(s) + rest; text[0] == '"' && ReadString(text[1..]) == Read(s, rest)
  {
    ReadEscaped(s, rest);
    Reassociate3("\"", Escape(s), "\"", rest);
    assert ("\"" + (Escape(s) + ("\"" + rest)))[1..] == Escape(s) + ("\"" + rest);
  }

  // ---------------------------------------------------------------- values

  datatype Value = NoValue | Value(value: Json, rest: string)
  datatype Values = NoValues | Values(items: seq<Json>, rest: string)
  datatype Members = NoMembers | Members(entries: seq<Entry>, rest: string)

  function NumberEnd(text: string): (n: nat)
    ensures n <= |text|
  {
    if text != "" && InNumber(text[0]) then 1 + NumberEnd(text[1..]) else 0
  }

  function Word(text: string, word: string, value: Json): Value {
    if word <= text then Value(value, text[|word|..]) else NoValue
  }

  function ReadValue(text: string): (r: Value)
    ensures r.Value? ==> |r.rest| < |text|
    decreases |text|, 1
  {
    if text == "" then NoValue
    else
      match text[0]
      case 'n' => Word(text, "null", Null)
      case 't' => Word(text, "true", Bool(true))
      case 'f' => Word(text, "false", Bool(false))
      case '"' =>
        (match ReadString(text[1..]) case Read(s, rest) => Value(String(s), rest) case Failed => NoValue)
      case '[' =>
        (match ReadArray(text[1..]) case Values(items, rest) => Value(Array(items), rest) case NoValues => NoValue)
      case '{' =>
        (match ReadObject(text[1..])
         case Members(entries, rest) => Value(Object(entries), rest)
         case NoMembers => NoValue)
      case _ =>
        var n := NumberEnd(text);
        if IsNumber(text[..n]) then Value(Number(text[..n]), text[n..]) else NoValue
  }

  /** The elements of an array after its opening bracket. */
  function ReadArray(text: string): (r: Values)
    ensures r.Values? ==> |r.rest| < |text|
    decreases |text|, 3
  {
    if text != "" && text[0] == ']' then Values([], text[1..]) else ReadElements(text)
  }

  function ReadElements(text: string): (r: Values)
    ensures r.Values? ==> |r.rest| < |text|
    decreases |text|, 2
  {
    match ReadValue(text)
    case NoValue => NoValues
    case Value(v, rest) =>
      if rest != "" && rest[0] == ']' then Values([v], rest[1..])
      else if rest != "" && rest[0] == ',' then
        (match ReadElements(rest[1..])
         case Values(items, after) => Values([v] + items, after)
         case NoValues => NoValues)
      else NoValues
  }

  /** The entries of an object after its opening brace. */
  function ReadObject(text: string): (r: Members)
    ensures r.Members? ==> |r.rest| < |text|
    decreases |text|, 3
  {
    if text != "" && text[0] == '}' then Members([], text[1..]) else ReadMembers(text)
  }

  function ReadMembers(text: string): (r: Members)
    ensures r.Members? ==> |r.rest| < |text|
    decreases |text|, 2
  {
    if text == "" || text[0] != '"' then NoMembers
    else
      match ReadString(text[1..])
      case Failed => NoMembers
      case Read(key, colon) =>
        if colon == "" || colon[0] != ':' then NoMembers
        else
          match ReadValue(colon[1..])
          case NoValue => NoMembers
          case Value(v, rest) =>
            if rest != "" && rest[0] == '}' then Members([Entry(key, v)], rest[1..])
            else if rest != "" && rest[0] == ',' then
              (match ReadMembers(rest[1..])
               case Members(entries, after) => Members([Entry(key, v)] + entries, after)
               case NoMembers => NoMembers)
            else NoMembers
  }

  // ---------------------------------------------------------------- the round trip

  lemma {:induction false} NumberEnds(text: string, rest: string)
    requires (forall i | 0 <= i < |text| :: InNumber(text[i])) && Delimited(rest)
    ensures NumberEnd(text + rest) == |text|
  {
    if text == "" {
      assert text + rest == rest;
    } else {
      assert (text + rest)[1..] == text[1..] + rest;
      NumberEnds(text[1..], rest);
    }
  }

  lemma ReadNumber(text: string, rest: string)
    requires IsNumber(text) && Delimited(rest)
    ensures ReadValue(text + rest) == Value(Number(text), rest)
  {
    NumberEnds(text, rest);
    assert (text + rest)[..|text|] == text && (text + rest)[|text|..] == rest && (text + rest)[0] == text[0];
  }

  lemma ReadWord(text: string, word: string, rest: string, value: Json)
    requires text == word + rest
    ensures Word(text, word, value) == Value(value, rest)
  {
  }

  /** Every value is read back from its compact text, whatever separator follows it. */
  lemma {:induction false} ReadCompact(v: Json, rest: string)
    requires Printable(v) && Delimited(rest)
    ensures ReadValue(Compact(v) + rest) == Value(v, rest)
    decreases v, 0
  {
    var text := Compact(v) + rest;
    match v
    case Null => ReadWord(text, "null", rest, Null);
    case Bool(b) => ReadWord(text, if b then "true" else "false", rest, v);
    case Number(n) => ReadNumber(n, rest);
    case String(s) => ReadQuoted(s, rest);
    case Array(items) => ReadCompactArray(items, rest);
    case Object(entries) => ReadCompactObject(entries, rest);
  }

  // One step of each reader.

  lemma ArrayRead(text: string, items: seq<Json>, rest: string)
    requires text != "" && text[0] != ']' && ReadElements(text) == Values(items, rest)
    ensures ReadValue("[" + text) == Value(Array(items), rest)
  {
    assert ReadArray(text) == Values(items, rest);
    assert ("[" + text)[0] == '[' && ("[" + text)[1..] == text;
  }

  lemma LastElement(text: string, v: Json, rest: string)
    requires ReadValue(text) == Value(v, "]" + rest)
    ensures ReadElements(text) == Values([v], rest)
  {
    assert ("]" + rest)[1..] == rest;
  }

  lemma NextElement(text: string, v: Json, next: string, items: seq<Json>, rest: string)
    requires ReadValue(text) == Value(v, "," + next) && ReadElements(next) == Values(items, rest)
    ensures ReadElements(text) == Values([v] + items, rest)
  {
    assert ("," + next)[1..] == next;
  }

  lemma ObjectRead(text: string, entries: seq<Entry>, rest: string)
    requires text != "" && text[0] != '}' && ReadMembers(text) == Members(entries, rest)
    ensures ReadValue("{" + text) == Value(Object(entries), rest)
  {
    assert ReadObject(text) == Members(entries, rest);
    assert ("{" + text)[0] == '{' && ("{" + text)[1..] == text;
  }

  lemma LastMember(key: string, text: string, v: Json, rest: string)
    requires ReadValue(text) == Value(v, "}" + rest)
    ensures ReadMembers(Quote(key) + (":" + text)) == Members([Entry(key, v)], rest)
  {
    ReadQuoted(key, ":" + text);
    assert (":" + text)[1..] == text && ("}" + rest)[1..] == rest;
  }

  lemma NextMember(key: string, text: string, v: Json, next: string, entries: seq<Entry>, rest: string)
    requires ReadValue(text) == Value(v, "," + next) && ReadMembers(next) == Members(entries, rest)
    ensures ReadMembers(Quote(key) + (":" + text)) == Members([Entry(key, v)] + entries, rest)
  {
    ReadQuoted(key, ":" + text);
    assert (":" + text)[1..] == text && ("," + next)[1..] == next;
  }

  /** A value's text starts with nothing that would end an array. */
  lemma FirstChar(v: Json)
    requires Printable(v)
    ensures Compact(v) != "" && Compact(v)[0] != ']'
  {
  }

  lemma ReadCompactArray(items: seq<Json>, rest: string)
    requires Printable(Array(items)) && Delimited(rest)
    ensures ReadValue(Compact(Array(items)) + rest) == Value(Array(items), rest)
    decreases items, 2
  {
    if items == [] {
      var text := "[" + "]" + rest;
      assert text[1..] == "]" + rest && ("]" + rest)[1..] == rest;
      assert Compact(Array(items)) + rest == text;
    } else {
      var first, more := Compact(items[0]), CompactItems(items[1..]);
      ReadCompactItems(items, rest);
      FirstChar(items[0]);
      ArrayRead(first + (more + rest), items, rest);
      Reassociate3("[", first, more, rest);
    }
  }

  lemma {:induction false} ReadCompactItems(items: seq<Json>, rest: string)
    requires Printable(Array(items)) && items != []
    ensures ReadElements(Compact(items[0]) + (CompactItems(items[1..]) + rest)) == Values(items, rest)
    decreases items, 1
  {
    var tail := items[1..];
    var more := CompactItems(tail) + rest;
    ReadCompact(items[0], more);
    if tail == [] {
      LastElement(Compact(items[0]) + more, items[0], rest);
      assert items == [items[0]];
    } else {
      ReadCompactItems(tail, rest);
      var first, after := Compact(tail[0]), CompactItems(tail[1..]);
      Reassociate3(",", first, after, rest);
      NextElement(Compact(items[0]) + more, items[0], first + (after + rest), tail, rest);
      assert items == [items[0]] + tail;
    }
  }

  lemma ReadCompactObject(entries: seq<Entry>, rest: string)
    requires Printable(Object(entries)) && Delimited(rest)
    ensures ReadValue(Compact(Object(entries)) + rest) == Value(Object(entries), rest)
    decreases entries, 2
  {
    if entries == [] {
      var text := "{" + "}" + rest;
      assert text[1..] == "}" + rest && ("}" + rest)[1..] == rest;
      assert Compact(Object(entries)) + rest == text;
    } else {
      var first, more := CompactEntry(entries[0]), CompactEntries(entries[1..]);
      ReadCompactEntries(entries, rest);
      assert first[0] == '"';
      ObjectRead(first + (more + rest), entries, rest);
      Reassociate3("{", first, more, rest);
    }
  }

  lemma {:induction false} ReadCompactEntries(entries: seq<Entry>, rest: string)
    requires Printable(Object(entries)) && entries != []
    ensures ReadMembers(CompactEntry(entries[0]) + (CompactEntries(entries[1..]) + rest)) == Members(entries, rest)
    decreases entries, 1
  {
    var e, tail := entries[0], entries[1..];
    var more := CompactEntries(tail) + rest;
    ReadCompact(e.value, more);
    Reassociate3(Quote(e.key), ":", Compact(e.value), more);
    if tail == [] {
      LastMember(e.key, Compact(e.value) + more, e.value, rest);
      assert entries == [e];
    } else {
      ReadCompactEntries(tail, rest);
      var first, after := CompactEntry(tail[0]), CompactEntries(tail[1..]);
      Reassociate3(",", first, after, rest);
      NextMember(e.key, Compact(e.value) + more, e.value, first + (after + rest), tail, rest);
      assert entries == [e] + tail;
    }
  }

  /** Reading the compact text of a value gives back the value and leaves nothing. */
  lemma RoundTrip(v: Json)
    requires Printable(v)
    ensures ReadValue(Compact(v)) == Value(v, "")
  {
    ReadCompact(v, "");
    assert Compact(v) + "" == Compact(v);
  }
}
