/**
 The indented serialisation of JSON values (`serde_json::to_vec_pretty`), which is what fixture files are compared by.
 Dropping the white space outside strings gives the compact text, so distinct values have distinct indented texts too.
*/
module JsonPretty {
  import opened JsonText

  function Indent(n: nat): string {
    if n == 0 then "" else "  " + Indent(n - 1)
  }

  /** Two blanks a level. */
  lemma {:induction false} IndentMeans(n: nat)
    ensures |Indent(n)| == 2 * n && forall c | c in Indent(n) :: c == ' '
  {
    if n > 0 {
      IndentMeans(n - 1);
    }
  }

  function Pretty(v: Json, n: nat): string
    decreases v
  {
    match v
    case Array(items) =>
      "[" + if items == [] then "]" else "\n" + (Indent(n + 1) + (Pretty(items[0], n + 1) + PrettyItems(items[1..], n)))
    case Object(entries) =>
      "{" + if entries == [] then "}"
          else "\n" + (Indent(n + 1) + (PrettyEntry(entries[0], n + 1) + PrettyEntries(entries[1..], n)))
    case _ => Compact(v)
  }

  /** The rest of an array after its first element. */
  function PrettyItems(items: seq<Json>, n: nat): string
    decreases items
  {
    if items == [] then "\n" + (Indent(n) + "]")
    else ",\n" + (Indent(n + 1) + (Pretty(items[0], n + 1) + PrettyItems(items[1..], n)))
  }

  function PrettyEntry(e: Entry, n: nat): string
    decreases e
  {
    Quote(e.key) + (": " + Pretty(e.value, n))
  }

  function PrettyEntries(entries: seq<Entry>, n: nat): string
    decreases entries
  {
    if entries == [] then "\n" + (Indent(n) + "}")
    else ",\n" + (Indent(n + 1) + (PrettyEntry(entries[0], n + 1) + PrettyEntries(entries[1..], n)))
  }

  // ---------------------------------------------------------------- dropping the layout

  datatype Mode = Outside | Inside | Escaped

  function NextMode(c: char, mode: Mode): Mode {
    match mode
    case Outside => if c == '"' then Inside else Outside
    case Inside => if c == '"' then Outside else if c == '\\' then Escaped else Inside
    case Escaped => Inside
  }

  function Kept(c: char, mode: Mode): string {
    if mode.Outside? && (c == ' ' || c == '\n') then "" else [c]
  }

  /** The text without the blanks and line feeds outside strings. */
  function Squeeze(text: string, mode: Mode): string {
    if text == "" then "" else Kept(text[0], mode) + Squeeze(text[1..], NextMode(text[0], mode))
  }

  function ModeAfter(text: string, mode: Mode): Mode {
    if text == "" then mode else ModeAfter(text[1..], NextMode(text[0], mode))
  }

  lemma {:induction false} SqueezeConcat(a: string, b: string, mode: Mode)
    ensures Squeeze(a + b, mode) == Squeeze(a, mode) + Squeeze(b, ModeAfter(a, mode))
    ensures ModeAfter(a + b, mode) == ModeAfter(b, ModeAfter(a, mode))
  {
    if a == "" {
      assert a + b == b;
    } else {
      assert (a + b)[1..] == a[1..] + b;
      SqueezeConcat(a[1..], b, NextMode(a[0], mode));
    }
  }

  /** A text that is whole by itself squeezes to this. */
  predicate Squeezes(text: string, out: string) {
    Squeeze(text, Outside) == out && ModeAfter(text, Outside) == Outside
  }

  lemma Both(a: string, x: string, b: string, y: string)
    requires Squeezes(a, x) && Squeezes(b, y)
    ensures Squeezes(a + b, x + y)
  {
    SqueezeConcat(a, b, Outside);
  }

  /** Text without quotes or layout is kept. */
  lemma {:induction false} PlainSqueezes(text: string)
    requires forall i | 0 <= i < |text| :: text[i] != '"' && text[i] != ' ' && text[i] != '\n'
    ensures Squeezes(text, text)
  {
    if text != "" {
      PlainSqueezes(text[1..]);
      assert text == [text[0]] + text[1..];
    }
  }

  lemma {:induction false} LayoutSqueezes(text: string)
    requires forall i | 0 <= i < |text| :: text[i] == ' ' || text[i] == '\n'
    ensures Squeezes(text, "")
  {
    if text != "" {
      LayoutSqueezes(text[1..]);
    }
  }

  lemma {:induction false} IndentIsLayout(n: nat)
    ensures forall i | 0 <= i < |Indent(n)| :: Indent(n)[i] == ' '
  {
    if n > 0 {
      IndentIsLayout(n - 1);
    }
  }

  /** A backslash takes the next character with it. */
  lemma EscapedPair(c: char, tail: string)
    requires forall i | 0 <= i < |tail| :: tail[i] != '"' && tail[i] != '\\'
    ensures var text := ['\\', c] + tail; Squeeze(text, Inside) == text && ModeAfter(text, Inside) == Inside
  {
    var text := ['\\', c] + tail;
    InsideKept(tail);
    assert text[1..] == [c] + tail && text[1..][1..] == tail;
    assert Squeeze(text[1..], Escaped) == [c] + tail;
    assert text == ['\\'] + ([c] + tail);
  }

  lemma EscapeCharInside(c: char)
    ensures Squeeze(EscapeChar(c), Inside) == EscapeChar(c) && ModeAfter(EscapeChar(c), Inside) == Inside
  {
    var e := EscapeChar(c);
    if e == [c] {
      InsideKept(e);
    } else {
      EscapedPair(e[1], e[2..]);
      assert e == ['\\', e[1]] + e[2..];
    }
  }

  lemma {:induction false} InsideKept(text: string)
    requires forall i | 0 <= i < |text| :: text[i] != '"' && text[i] != '\\'
    ensures Squeeze(text, Inside) == text && ModeAfter(text, Inside) == Inside
  {
    if text != "" {
      InsideKept(text[1..]);
      assert text == [text[0]] + text[1..];
    }
  }

  lemma {:induction false} EscapeInside(s: string)
    ensures Squeeze(Escape(s), Inside) == Escape(s) && ModeAfter(Escape(s), Inside) == Inside
  {
    if s != "" {
      EscapeCharInside(s[0]);
      EscapeInside(s[1..]);
      SqueezeConcat(EscapeChar(s[0]), Escape(s[1..]), Inside);
    }
  }

  lemma QuoteSqueezes(s: string)
    ensures Squeezes(Quote(s), Quote(s))
  {
    EscapeInside(s);
    SqueezeConcat(Escape(s), "\"", Inside);
    assert Squeeze("\"", Inside) == "\"" && ModeAfter("\"", Inside) == Outside;
    assert Quote(s)[1..] == Escape(s) + "\"";
  }

  // ---------------------------------------------------------------- the indented text

  /** Layout, then something. */
  lemma LaidOut(n: nat, text: string, out: string)
    requires Squeezes(text, out)
    ensures Squeezes("\n" + (Indent(n) + text), out) && Squeezes(",\n" + (Indent(n) + text), "," + out)
  {
    IndentIsLayout(n);
    LayoutSqueezes(Indent(n));
    Both(Indent(n), "", text, out);
    LayoutSqueezes("\n");
    Both("\n", "", Indent(n) + text, out);
    PlainSqueezes(",");
    Both(",", ",", "\n" + (Indent(n) + text), out);
    assert ",\n" + (Indent(n) + text) == "," + ("\n" + (Indent(n) + text));
    assert "" + out == out;
  }

  lemma {:induction false} PrettySqueezes(v: Json, n: nat)
    requires Printable(v)
    ensures Squeezes(Pretty(v, n), Compact(v))
    decreases v
  {
    match v
    case String(s) => QuoteSqueezes(s);
    case Array(items) =>
      PlainSqueezes("[");
      if items == [] {
        PlainSqueezes("]");
        Both("[", "[", "]", "]");
      } else {
        PrettySqueezes(items[0], n + 1);
        ItemsSqueeze(items[1..], n);
        Both(Pretty(items[0], n + 1), Compact(items[0]), PrettyItems(items[1..], n), CompactItems(items[1..]));
        var rest := Pretty(items[0], n + 1) + PrettyItems(items[1..], n);
        var out := Compact(items[0]) + CompactItems(items[1..]);
        LaidOut(n + 1, rest, out);
        Both("[", "[", "\n" + (Indent(n + 1) + rest), out);
      }
    case Object(entries) =>
      PlainSqueezes("{");
      if entries == [] {
        PlainSqueezes("}");
        Both("{", "{", "}", "}");
      } else {
        EntrySqueezes(entries[0], n + 1);
        EntriesSqueeze(entries[1..], n);
        Both(PrettyEntry(entries[0], n + 1), CompactEntry(entries[0]), PrettyEntries(entries[1..], n),
            CompactEntries(entries[1..]));
        var rest := PrettyEntry(entries[0], n + 1) + PrettyEntries(entries[1..], n);
        var out := CompactEntry(entries[0]) + CompactEntries(entries[1..]);
        LaidOut(n + 1, rest, out);
        Both("{", "{", "\n" + (Indent(n + 1) + rest), out);
      }
    case _ => PlainSqueezes(Compact(v));
  }

  lemma {:induction false} ItemsSqueeze(items: seq<Json>, n: nat)
    requires forall i | 0 <= i < |items| :: Printable(items[i])
    ensures Squeezes(PrettyItems(items, n), CompactItems(items))
    decreases items
  {
    if items == [] {
      PlainSqueezes("]");
      LaidOut(n, "]", "]");
    } else {
      PrettySqueezes(items[0], n + 1);
      ItemsSqueeze(items[1..], n);
      Both(Pretty(items[0], n + 1), Compact(items[0]), PrettyItems(items[1..], n), CompactItems(items[1..]));
      LaidOut(n + 1, Pretty(items[0], n + 1) + PrettyItems(items[1..], n),
              Compact(items[0]) + CompactItems(items[1..]));
    }
  }

  lemma {:induction false} EntrySqueezes(e: Entry, n: nat)
    requires Printable(e.value)
    ensures Squeezes(PrettyEntry(e, n), CompactEntry(e))
    decreases e
  {
    PrettySqueezes(e.value, n);
    PlainSqueezes(":");
    LayoutSqueezes(" ");
    Both(":", ":", " ", "");
    assert ":" + " " == ": " && ":" + "" == ":";
    Both(": ", ":", Pretty(e.value, n), Compact(e.value));
    QuoteSqueezes(e.key);
    Both(Quote(e.key), Quote(e.key), ": " + Pretty(e.value, n), ":" + Compact(e.value));
  }

  lemma {:induction false} EntriesSqueeze(entries: seq<Entry>, n: nat)
    requires forall i | 0 <= i < |entries| :: Printable(entries[i].value)
    ensures Squeezes(PrettyEntries(entries, n), CompactEntries(entries))
    decreases entries
  {
    if entries == [] {
      PlainSqueezes("}");
      LaidOut(n, "}", "}");
    } else {
      EntrySqueezes(entries[0], n + 1);
      EntriesSqueeze(entries[1..], n);
      Both(PrettyEntry(entries[0], n + 1), CompactEntry(entries[0]), PrettyEntries(entries[1..], n),
          CompactEntries(entries[1..]));
      LaidOut(n + 1, PrettyEntry(entries[0], n + 1) + PrettyEntries(entries[1..], n),
              CompactEntry(entries[0]) + CompactEntries(entries[1..]));
    }
  }

  /** Distinct values have distinct indented texts. */
  lemma PrettyInjective(a: Json, b: Json)
    requires Printable(a) && Printable(b) && Pretty(a, 0) == Pretty(b, 0)
    ensures a == b
  {
    PrettySqueezes(a, 0);
    PrettySqueezes(b, 0);
    CompactInjective(a, b);
  }
}
