/**
 Line accounting over a git unified diff (codex-rs/analytics/src/accepted_lines.rs).

 The parser is specified as a fold of `ParseLine` over the lines of the text. Its meaning is given
 by an independent printer: `Render` prints a structured diff and `ParseRendered` states that parsing
 the printed text gives back the counts and the fingerprints of the structure.
*/
module AcceptedLines {
  import opened Common
  import opened WhiteSpace

  /** SHA-1 is kept symbolic: a digest is the pair it was computed from. */
  datatype Digest = Digest(domain: string, text: string)
  datatype Fingerprint = Fingerprint(path: Digest, line: Digest)

  datatype Summary = Summary(added: nat, deleted: nat, fingerprints: seq<Fingerprint>)

  /** The loop variables of the parser. */
  datatype Cursor = Cursor(path: Option<string>, inHunk: bool, sum: Summary)

  const EMPTY_SUMMARY := Summary(0, 0, [])
  const START := Cursor(None, false, EMPTY_SUMMARY)

  // ---------------------------------------------------------------- text and lines

  predicate StartsWith(line: string, prefix: string) {
    prefix <= line
  }

  /** The prefixes the parser looks for are told apart by their first character. */
  lemma FirstChars(line: string)
    ensures StartsWith(line, "diff --git ") ==> line[0] == 'd'
    ensures StartsWith(line, "@@ ") ==> line[0] == '@'
    ensures StartsWith(line, "+++ ") ==> line[0] == '+'
    ensures StartsWith(line, "--- ") ==> line[0] == '-'
    ensures StartsWith(line, "+") <==> line != "" && line[0] == '+'
    ensures StartsWith(line, "-") <==> line != "" && line[0] == '-'
  {
  }

  /** `str::lines` drops the line feed and one carriage return before it; a last line with no feed is kept whole. */
  function StripCr(line: string): string {
    if line != "" && line[|line| - 1] == '\r' then line[..|line| - 1] else line
  }

  function IndexOfNewline(text: string): (i: nat)
    ensures i <= |text| && '\n' !in text[..i] && (i < |text| ==> text[i] == '\n')
  {
    if text == "" || text[0] == '\n' then 0 else 1 + IndexOfNewline(text[1..])
  }

  function Lines(text: string): seq<string>
    decreases |text|
  {
    var i := IndexOfNewline(text);
    if text == "" then []
    else if i == |text| then [text]
    else [StripCr(text[..i])] + Lines(text[i + 1..])
  }

  function Unlines(lines: seq<string>): string {
    if lines == [] then "" else lines[0] + "\n" + Unlines(lines[1..])
  }

  function Utf8Len(s: string): nat {
    if s == "" then 0
    else (if s[0] < '\U{0080}' then 1 else if s[0] < '\U{0800}' then 2 else if s[0] < '\U{10000}' then 3 else 4)
         + Utf8Len(s[1..])
  }

  // ---------------------------------------------------------------- the parser

  function NormalizeDiffPath(path: string): Option<string> {
    var trimmed := TrimEnd(TrimStart(path));
    if trimmed == "/dev/null" then None
    else if StartsWith(trimmed, "b/") || StartsWith(trimmed, "a/") then Some(trimmed[2..])
    else Some(trimmed)
  }

  /** `alnum` is `char::is_alphanumeric`, a Unicode table. */
  function NormalizeEffectiveLine(alnum: char -> bool, line: string): Option<string> {
    var normalized := JoinWords(Words(line));
    if Utf8Len(normalized) <= 3 then None
    else if !exists i | 0 <= i < |normalized| :: alnum(normalized[i]) || normalized[i] == '_' then None
    else Some(normalized)
  }

  function Fingerprints(alnum: char -> bool, path: Option<string>, line: string): seq<Fingerprint> {
    match (path, NormalizeEffectiveLine(alnum, line))
    case (Some(p), Some(n)) => [Fingerprint(Digest("path", p), Digest("line", n))]
    case _ => []
  }

  function ParseLine(alnum: char -> bool, at: Cursor, line: string): Cursor {
    if StartsWith(line, "diff --git ") then at.(path := None, inHunk := false)
    else if StartsWith(line, "@@ ") then at.(inHunk := true)
    else if !at.inHunk && StartsWith(line, "+++ ") then at.(path := NormalizeDiffPath(line[4..]))
    else if !at.inHunk && StartsWith(line, "--- ") then at
    else if StartsWith(line, "+") then
      at.(sum := Plus(at.sum, Summary(1, 0, Fingerprints(alnum, at.path, line[1..]))))
    else if StartsWith(line, "-") then at.(sum := Plus(at.sum, Summary(0, 1, [])))
    else at
  }

  function ParseLines(alnum: char -> bool, at: Cursor, lines: seq<string>): Cursor
    decreases |lines|
  {
    if lines == [] then at
    else ParseLine(alnum, ParseLines(alnum, at, lines[..|lines| - 1]), lines[|lines| - 1])
  }

  function Summarize(alnum: char -> bool, text: string): Summary {
    ParseLines(alnum, START, Lines(text)).sum
  }

  /** The counts alone, which is all that the analytics event carries. */
  function LineCounts(text: string): (nat, nat) {
    var sum := Summarize(c => false, text);
    (sum.added, sum.deleted)
  }

  function Plus(a: Summary, b: Summary): Summary {
    Summary(a.added + b.added, a.deleted + b.deleted, a.fingerprints + b.fingerprints)
  }

  lemma ParseNext(alnum: char -> bool, lines: seq<string>, i: nat)
    requires i < |lines|
    ensures ParseLines(alnum, START, lines[..i + 1]) == ParseLine(alnum, ParseLines(alnum, START, lines[..i]), lines[i])
  {
    assert lines[..i + 1][..i] == lines[..i];
  }

  /** The body of the parser's loop, on its loop variables. */
  method ParseOneLine(alnum: char -> bool, at: Cursor, line: string)
      returns (path: Option<string>, inHunk: bool, sum: Summary)
    ensures Cursor(path, inHunk, sum) == ParseLine(alnum, at, line)
  {
    path, inHunk, sum := at.path, at.inHunk, at.sum;
    if StartsWith(line, "diff --git ") {
      path, inHunk := None, false;
      return;
    }
    if StartsWith(line, "@@ ") {
      inHunk := true;
      return;
    }
    if !inHunk && StartsWith(line, "+++ ") {
      path := NormalizeDiffPath(line[4..]);
      return;
    }
    if !inHunk && StartsWith(line, "--- ") {
      return;
    }
    if StartsWith(line, "+") {
      sum := Summary(sum.added + 1, sum.deleted, sum.fingerprints + Fingerprints(alnum, path, line[1..]));
      return;
    }
    if StartsWith(line, "-") {
      sum := Summary(sum.added, sum.deleted + 1, sum.fingerprints);
    }
  }

  /** The parser's loop over the lines of the diff. */
  method AcceptedLineFingerprintsFromUnifiedDiff(alnum: char -> bool, text: string) returns (sum: Summary)
    ensures sum == Summarize(alnum, text)
  {
    var path: Option<string> := None;
    var inHunk := false;
    sum := EMPTY_SUMMARY;
    var lines := Lines(text);
    for i := 0 to |lines|
      invariant Cursor(path, inHunk, sum) == ParseLines(alnum, START, lines[..i])
    {
      ParseNext(alnum, lines, i);
      path, inHunk, sum := ParseOneLine(alnum, Cursor(path, inHunk, sum), lines[i]);
    }
    assert lines[..|lines|] == lines;
  }

  // ---------------------------------------------------------------- the printer

  datatype BodyLine = Context(text: string) | Added(text: string) | Deleted(text: string) | NoNewline
  datatype Hunk = Hunk(ranges: string, body: seq<BodyLine>)
  /** A path with unusual characters is printed as a C string, escapes and quotes included. */
  datatype NewPath = DevNull | InTree(path: string) | Quoted(escaped: string)
  /** Renames, mode changes and binary files have no patch. */
  datatype Patch = NoPatch | Patch(oldName: string, newPath: NewPath, hunks: seq<Hunk>)
  datatype FileDiff = FileDiff(names: string, extended: seq<string>, patch: Patch)

  function RenderBodyLine(b: BodyLine): string {
    match b
    case Context(text) => " " + text
    case Added(text) => "+" + text
    case Deleted(text) => "-" + text
    case NoNewline => "\\ No newline at end of file"
  }

  function RenderBody(body: seq<BodyLine>): seq<string> {
    if body == [] then [] else RenderBody(body[..|body| - 1]) + [RenderBodyLine(body[|body| - 1])]
  }

  function RenderHunks(hunks: seq<Hunk>): seq<string> {
    if hunks == [] then []
    else
      var last := hunks[|hunks| - 1];
      RenderHunks(hunks[..|hunks| - 1]) + (["@@ " + last.ranges] + RenderBody(last.body))
  }

  function RenderPath(p: NewPath): string {
    match p
    case DevNull => "/dev/null"
    case InTree(path) => "b/" + path
    case Quoted(escaped) => "\"b/" + escaped + "\""
  }

  function RenderPatch(p: Patch): seq<string> {
    match p
    case NoPatch => []
    case Patch(oldName, newPath, hunks) =>
      ["--- " + oldName] + ["+++ " + RenderPath(newPath)] + RenderHunks(hunks)
  }

  function RenderFile(f: FileDiff): seq<string> {
    ["diff --git " + f.names] + (f.extended + RenderPatch(f.patch))
  }

  function RenderFiles(files: seq<FileDiff>): seq<string> {
    if files == [] then [] else RenderFiles(files[..|files| - 1]) + RenderFile(files[|files| - 1])
  }

  /** `index`, `new file mode`, `rename from` and the like: no extended header starts like a patch line. */
  predicate NeutralHeader(line: string) {
    !StartsWith(line, "diff --git ") && !StartsWith(line, "@@ ") && !StartsWith(line, "+") && !StartsWith(line, "-")
  }

  predicate WellFormed(files: seq<FileDiff>) {
    && (forall f, line | f in files && line in f.extended :: NeutralHeader(line))
    && (forall line | line in RenderFiles(files) :: '\n' !in line)
  }

  // What the structure says, with no reference to its text.

  /** A line worth a fingerprint: more than three bytes, with a letter, a digit or an underscore among them. */
  predicate Distinctive(alnum: char -> bool, line: string) {
    Utf8Len(line) > 3 && exists c | c in line :: alnum(c) || c == '_'
  }

  /** An added line of a named file is fingerprinted by the digests of the path and of its words. */
  function LineSum(alnum: char -> bool, path: Option<string>, line: BodyLine): Summary {
    match line
    case Added(text) =>
      var words := JoinWords(Words(text));
      if path.Some? && Distinctive(alnum, words)
      then Summary(1, 0, [Fingerprint(Digest("path", path.value), Digest("line", words))])
      else Summary(1, 0, [])
    case Deleted(_) => Summary(0, 1, [])
    case _ => Summary(0, 0, [])
  }

  lemma FingerprintsMean(alnum: char -> bool, path: Option<string>, text: string)
    ensures Summary(1, 0, Fingerprints(alnum, path, text)) == LineSum(alnum, path, Added(text))
  {
    var words := JoinWords(Words(text));
    assert forall i | 0 <= i < |words| :: words[i] in words;
  }

  lemma {:induction false} Utf8LenConcat(a: string, b: string)
    ensures Utf8Len(a + b) == Utf8Len(a) + Utf8Len(b)
  {
    if a == "" {
      assert a + b == b;
    } else {
      assert (a + b)[1..] == a[1..] + b;
      Utf8LenConcat(a[1..], b);
    }
  }

  /** The bytes of a text: those of its characters, one to four each. */
  lemma Utf8LenMeans(s: string, c: char)
    ensures var p := c as int;
            var bytes := if p < 128 then 1 else if p < 2048 then 2 else if p < 65536 then 3 else 4;
            Utf8Len("") == 0 && Utf8Len(s + [c]) == Utf8Len(s) + bytes
  {
    Utf8LenConcat(s, [c]);
  }

  function BodySum(alnum: char -> bool, path: Option<string>, body: seq<BodyLine>): Summary {
    if body == [] then EMPTY_SUMMARY
    else Plus(BodySum(alnum, path, body[..|body| - 1]), LineSum(alnum, path, body[|body| - 1]))
  }

  function HunksSum(alnum: char -> bool, path: Option<string>, hunks: seq<Hunk>): Summary {
    if hunks == [] then EMPTY_SUMMARY
    else Plus(HunksSum(alnum, path, hunks[..|hunks| - 1]), BodySum(alnum, path, hunks[|hunks| - 1].body))
  }

  /** The path that added lines are attributed to; a C string is not unquoted. */
  function PathOf(p: NewPath): Option<string> {
    match p
    case DevNull => None
    case InTree(path) => Some(TrimEnd(path))
    case Quoted(escaped) => Some("\"b/" + escaped + "\"")
  }

  function FileSum(alnum: char -> bool, f: FileDiff): Summary {
    match f.patch
    case NoPatch => EMPTY_SUMMARY
    case Patch(_, newPath, hunks) => HunksSum(alnum, PathOf(newPath), hunks)
  }

  function FilesSum(alnum: char -> bool, files: seq<FileDiff>): Summary {
    if files == [] then EMPTY_SUMMARY
    else Plus(FilesSum(alnum, files[..|files| - 1]), FileSum(alnum, files[|files| - 1]))
  }

  // ---------------------------------------------------------------- parsing what was printed

  lemma {:induction false} ParseAppend(alnum: char -> bool, at: Cursor, a: seq<string>, b: seq<string>)
    ensures ParseLines(alnum, at, a + b) == ParseLines(alnum, ParseLines(alnum, at, a), b)
    decreases |b|
  {
    if b == [] {
      assert a + b == a;
    } else {
      assert (a + b)[..|a + b| - 1] == a + b[..|b| - 1];
      ParseAppend(alnum, at, a, b[..|b| - 1]);
    }
  }

  lemma ParseOne(alnum: char -> bool, at: Cursor, line: string)
    ensures ParseLines(alnum, at, [line]) == ParseLine(alnum, at, line)
  {
    assert ParseLines(alnum, at, [line][..0]) == at;
  }

  lemma ParseBodyLine(alnum: char -> bool, at: Cursor, b: BodyLine)
    requires at.inHunk
    ensures ParseLine(alnum, at, RenderBodyLine(b)) == at.(sum := Plus(at.sum, LineSum(alnum, at.path, b)))
  {
    var line := RenderBodyLine(b);
    FirstChars(line);
    PlusAssociative(at.sum, at.sum, at.sum);
    assert line[1..] == match b case NoNewline => line[1..] case b => b.text;
    FingerprintsMean(alnum, at.path, line[1..]);
  }

  lemma {:induction false} ParseBody(alnum: char -> bool, at: Cursor, body: seq<BodyLine>)
    requires at.inHunk
    ensures ParseLines(alnum, at, RenderBody(body)) == at.(sum := Plus(at.sum, BodySum(alnum, at.path, body)))
    decreases |body|
  {
    if body == [] {
      PlusAssociative(at.sum, at.sum, at.sum);
    } else {
      var front, last := body[..|body| - 1], body[|body| - 1];
      var mid := at.(sum := Plus(at.sum, BodySum(alnum, at.path, front)));
      assert RenderBody(body) == RenderBody(front) + [RenderBodyLine(last)];
      ParseAppend(alnum, at, RenderBody(front), [RenderBodyLine(last)]);
      ParseBody(alnum, at, front);
      ParseOne(alnum, mid, RenderBodyLine(last));
      ParseBodyLine(alnum, mid, last);
      PlusAssociative(at.sum, BodySum(alnum, at.path, front), LineSum(alnum, at.path, last));
    }
  }

  lemma ParseHunk(alnum: char -> bool, at: Cursor, hunk: Hunk)
    ensures ParseLines(alnum, at, ["@@ " + hunk.ranges] + RenderBody(hunk.body))
         == Cursor(at.path, true, Plus(at.sum, BodySum(alnum, at.path, hunk.body)))
  {
    var header := "@@ " + hunk.ranges;
    ParseAppend(alnum, at, [header], RenderBody(hunk.body));
    FirstChars(header);
    ParseOne(alnum, at, header);
    ParseBody(alnum, at.(inHunk := true), hunk.body);
  }

  lemma {:induction false} ParseHunks(alnum: char -> bool, at: Cursor, hunks: seq<Hunk>)
    ensures ParseLines(alnum, at, RenderHunks(hunks))
         == Cursor(at.path, at.inHunk || hunks != [], Plus(at.sum, HunksSum(alnum, at.path, hunks)))
    decreases |hunks|
  {
    if hunks != [] {
      var front, last := hunks[..|hunks| - 1], hunks[|hunks| - 1];
      ParseHunks(alnum, at, front);
      var cursor := ParseLines(alnum, at, RenderHunks(front));
      ParseAppend(alnum, at, RenderHunks(front), ["@@ " + last.ranges] + RenderBody(last.body));
      ParseHunk(alnum, cursor, last);
      PlusAssociative(at.sum, HunksSum(alnum, at.path, front), BodySum(alnum, at.path, last.body));
    }
  }

  lemma PlusAssociative(a: Summary, b: Summary, c: Summary)
    ensures Plus(Plus(a, b), c) == Plus(a, Plus(b, c))
    ensures Plus(a, EMPTY_SUMMARY) == a == Plus(EMPTY_SUMMARY, a)
  {
  }

  lemma {:induction false} ParseNeutral(alnum: char -> bool, at: Cursor, lines: seq<string>)
    requires forall line | line in lines :: NeutralHeader(line)
    ensures ParseLines(alnum, at, lines) == at
    decreases |lines|
  {
    if lines != [] {
      ParseNeutral(alnum, at, lines[..|lines| - 1]);
      var line := lines[|lines| - 1];
      FirstChars(line);
      assert line in lines && NeutralHeader(line);
      assert ParseLine(alnum, at, line) == at;
    }
  }

  lemma {:induction false} TrimEndAfter(prefix: string, s: string)
    requires prefix != "" && !IsSpace(prefix[|prefix| - 1])
    ensures TrimEnd(prefix + s) == prefix + TrimEnd(s)
    decreases |s|
  {
    if s == "" {
      assert prefix + s == prefix;
    } else {
      assert (prefix + s)[..|prefix + s| - 1] == prefix + s[..|s| - 1];
      TrimEndAfter(prefix, s[..|s| - 1]);
    }
  }

  lemma PrintedPath(p: NewPath)
    ensures NormalizeDiffPath(RenderPath(p)) == PathOf(p)
  {
    match p
    case DevNull =>
      assert TrimEnd(TrimStart("/dev/null")) == "/dev/null";
    case InTree(path) =>
      TrimEndAfter("b/", path);
      assert ("b/" + TrimEnd(path))[0] == 'b' && "/dev/null"[0] != 'b';
    case Quoted(escaped) =>
      var text := "\"b/" + escaped + "\"";
      assert text[0] == '"' && text[|text| - 1] == '"' && "/dev/null"[0] != '"';
      TrimEndShrinks(text);
  }

  /** Of a path, trimmed, one prefix `a/` or `b/` is taken off, and nothing else; `/dev/null` is no path. */
  lemma DiffPathMeans(path: string)
    ensures var t, r := TrimEnd(TrimStart(path)), NormalizeDiffPath(path);
            && (r.None? <==> t == "/dev/null")
            && (r.Some? ==> t == (if "a/" <= t then "a/" else if "b/" <= t then "b/" else "") + r.value)
  {
  }

  /** A printed path comes back unchanged exactly when it does not end in white space. */
  lemma PathKeptIff(path: string)
    ensures NormalizeDiffPath("b/" + path) == Some(path) <==> path == "" || !IsSpace(path[|path| - 1])
  {
    PrintedPath(InTree(path));
    TrimEndShrinks(path);
  }

  lemma TrimEndShrinks(s: string)
    ensures |TrimEnd(s)| <= |s|
    ensures TrimEnd(s) == s <==> s == "" || !IsSpace(s[|s| - 1])
  {
  }

  /** Inside a hunk the two name lines are body lines. */
  function NameLinesSum(alnum: char -> bool, at: Cursor, p: NewPath): Summary {
    if at.inHunk then Summary(1, 1, Fingerprints(alnum, at.path, "++ " + RenderPath(p))) else EMPTY_SUMMARY
  }

  lemma ParseOldName(alnum: char -> bool, at: Cursor, oldName: string)
    ensures ParseLine(alnum, at, "--- " + oldName)
         == if at.inHunk then at.(sum := Plus(at.sum, Summary(0, 1, []))) else at
  {
    FirstChars("--- " + oldName);
  }

  lemma ParseNewName(alnum: char -> bool, at: Cursor, p: NewPath)
    ensures ParseLine(alnum, at, "+++ " + RenderPath(p))
         == if at.inHunk
            then at.(sum := Plus(at.sum, Summary(1, 0, Fingerprints(alnum, at.path, "++ " + RenderPath(p)))))
            else at.(path := PathOf(p))
  {
    var line := "+++ " + RenderPath(p);
    FirstChars(line);
    if at.inHunk {
      assert line[1..] == "++ " + RenderPath(p);
    } else {
      assert line[4..] == RenderPath(p);
      PrintedPath(p);
    }
  }

  lemma ParseNameLines(alnum: char -> bool, at: Cursor, oldName: string, p: NewPath)
    ensures ParseLines(alnum, at, ["--- " + oldName] + ["+++ " + RenderPath(p)])
         == Cursor(if at.inHunk then at.path else PathOf(p), at.inHunk, Plus(at.sum, NameLinesSum(alnum, at, p)))
  {
    var oldLine, newLine := "--- " + oldName, "+++ " + RenderPath(p);
    var mid := ParseLine(alnum, at, oldLine);
    ParseAppend(alnum, at, [oldLine], [newLine]);
    ParseOne(alnum, at, oldLine);
    ParseOne(alnum, mid, newLine);
    ParseOldName(alnum, at, oldName);
    ParseNewName(alnum, mid, p);
  }

  lemma ParsePatch(alnum: char -> bool, at: Cursor, p: Patch)
    requires p.Patch?
    ensures var path := if at.inHunk then at.path else PathOf(p.newPath);
            var sum := Plus(Plus(at.sum, NameLinesSum(alnum, at, p.newPath)), HunksSum(alnum, path, p.hunks));
            ParseLines(alnum, at, RenderPatch(p)) == Cursor(path, at.inHunk || p.hunks != [], sum)
  {
    var names := ["--- " + p.oldName] + ["+++ " + RenderPath(p.newPath)];
    ParseAppend(alnum, at, names, RenderHunks(p.hunks));
    ParseNameLines(alnum, at, p.oldName, p.newPath);
    ParseHunks(alnum, ParseLines(alnum, at, names), p.hunks);
  }

  lemma ParseFile(alnum: char -> bool, at: Cursor, f: FileDiff)
    requires forall line | line in f.extended :: NeutralHeader(line)
    ensures ParseLines(alnum, at, RenderFile(f)).sum == Plus(at.sum, FileSum(alnum, f))
  {
    var header := "diff --git " + f.names;
    ParseAppend(alnum, at, [header], f.extended + RenderPatch(f.patch));
    var cursor := at.(path := None, inHunk := false);
    ParseOne(alnum, at, header);
    ParseAppend(alnum, cursor, f.extended, RenderPatch(f.patch));
    ParseNeutral(alnum, cursor, f.extended);
    PlusAssociative(at.sum, EMPTY_SUMMARY, EMPTY_SUMMARY);
    if f.patch.Patch? {
      ParsePatch(alnum, cursor, f.patch);
    }
  }

  lemma {:induction false} ParseFiles(alnum: char -> bool, files: seq<FileDiff>)
    requires forall f, line | f in files && line in f.extended :: NeutralHeader(line)
    ensures ParseLines(alnum, START, RenderFiles(files)).sum == FilesSum(alnum, files)
    decreases |files|
  {
    if files != [] {
      var front, last := files[..|files| - 1], files[|files| - 1];
      ParseFiles(alnum, front);
      ParseAppend(alnum, START, RenderFiles(front), RenderFile(last));
      ParseFile(alnum, ParseLines(alnum, START, RenderFiles(front)), last);
    }
  }

  // ---------------------------------------------------------------- from lines to text

  /** A carriage return at the end of a line never changes what the parser does with it. */
  lemma ParseIgnoresCr(alnum: char -> bool, at: Cursor, line: string)
    ensures ParseLine(alnum, at, StripCr(line)) == ParseLine(alnum, at, line)
  {
    var stripped := StripCr(line);
    if stripped != line {
      PrefixIgnoresCr(line, "diff --git ");
      PrefixIgnoresCr(line, "@@ ");
      PrefixIgnoresCr(line, "+++ ");
      PrefixIgnoresCr(line, "--- ");
      PrefixIgnoresCr(line, "+");
      PrefixIgnoresCr(line, "-");
      if StartsWith(line, "+") {
        assert line[1..][..|line| - 2] == stripped[1..];
        if StartsWith(line, "+++ ") {
          assert line[4..][..|line| - 5] == stripped[4..];
          TrimIgnoresCr(stripped[4..]);
          assert stripped[4..] + "\r" == line[4..];
        }
      }
    }
  }

  lemma PrefixIgnoresCr(line: string, prefix: string)
    requires line != "" && line[|line| - 1] == '\r' && '\r' !in prefix
    ensures StartsWith(line[..|line| - 1], prefix) == StartsWith(line, prefix)
  {
    if |prefix| == |line| {
      assert line[..|prefix|][|line| - 1] == '\r';
    } else if |prefix| < |line| {
      assert line[..|line| - 1][..|prefix|] == line[..|prefix|];
    }
  }

  lemma TrimIgnoresCr(s: string)
    ensures TrimEnd(TrimStart(s + "\r")) == TrimEnd(TrimStart(s))
    decreases |s|
  {
    if s == "" {
      assert s + "\r" == "\r";
    } else if IsSpace(s[0]) {
      assert (s + "\r")[1..] == s[1..] + "\r";
      TrimIgnoresCr(s[1..]);
    } else {
      assert (s + "\r")[..|s|] == s;
    }
  }

  lemma {:induction false} ParseIgnoresCrs(alnum: char -> bool, at: Cursor, lines: seq<string>, stripped: seq<string>)
    requires |lines| == |stripped| && forall i | 0 <= i < |lines| :: stripped[i] == StripCr(lines[i])
    ensures ParseLines(alnum, at, stripped) == ParseLines(alnum, at, lines)
    decreases |lines|
  {
    if lines != [] {
      var n := |lines| - 1;
      ParseIgnoresCrs(alnum, at, lines[..n], stripped[..n]);
      ParseIgnoresCr(alnum, ParseLines(alnum, at, lines[..n]), lines[n]);
    }
  }

  lemma {:induction false} FirstNewline(line: string, rest: string)
    requires '\n' !in line
    ensures IndexOfNewline(line + "\n" + rest) == |line|
  {
    if line == "" {
      assert line + "\n" + rest == "\n" + rest;
    } else {
      assert (line + "\n" + rest)[1..] == line[1..] + "\n" + rest;
      FirstNewline(line[1..], rest);
    }
  }

  lemma {:induction false} LinesUnlines(lines: seq<string>)
    requires forall line | line in lines :: '\n' !in line
    ensures |Lines(Unlines(lines))| == |lines|
    ensures forall i | 0 <= i < |lines| :: Lines(Unlines(lines))[i] == StripCr(lines[i])
  {
    if lines != [] {
      var line, rest := lines[0], Unlines(lines[1..]);
      LinesUnfold(line, rest);
      LinesUnlines(lines[1..]);
    }
  }

  /** Parsing a printed diff gives the counts and fingerprints of the structure it was printed from. */
  lemma ParseRendered(alnum: char -> bool, files: seq<FileDiff>)
    requires WellFormed(files)
    ensures Summarize(alnum, Unlines(RenderFiles(files))) == FilesSum(alnum, files)
  {
    var lines := RenderFiles(files);
    LinesUnlines(lines);
    ParseIgnoresCrs(alnum, START, lines, Lines(Unlines(lines)));
    ParseFiles(alnum, files);
  }

  // ---------------------------------------------------------------- concatenation

  lemma ParseLineShift(alnum: char -> bool, x: Summary, at: Cursor, line: string)
    ensures ParseLine(alnum, at.(sum := Plus(x, at.sum)), line)
         == var end := ParseLine(alnum, at, line); end.(sum := Plus(x, end.sum))
  {
    PlusAssociative(x, at.sum, Summary(1, 0, if line == "" then [] else Fingerprints(alnum, at.path, line[1..])));
    PlusAssociative(x, at.sum, Summary(0, 1, []));
  }

  lemma {:induction false} ParseShift(alnum: char -> bool, x: Summary, at: Cursor, lines: seq<string>)
    ensures ParseLines(alnum, at.(sum := Plus(x, at.sum)), lines)
         == var end := ParseLines(alnum, at, lines); end.(sum := Plus(x, end.sum))
    decreases |lines|
  {
    if lines != [] {
      var front, last := lines[..|lines| - 1], lines[|lines| - 1];
      ParseShift(alnum, x, at, front);
      ParseLineShift(alnum, x, ParseLines(alnum, at, front), last);
    }
  }

  /** `ab` is `a + b`. */
  lemma {:induction false} LinesConcat(a: string, b: string, ab: string)
    requires (a == "" || a[|a| - 1] == '\n') && ab == a + b
    ensures Lines(ab) == Lines(a) + Lines(b)
    decreases |a|
  {
    if a == "" {
      assert ab == b;
    } else {
      NewlineFound(a);
      var i := IndexOfNewline(a);
      SameFirstNewline(a, ab);
      assert ab[i + 1..] == a[i + 1..] + b;
      LinesConcat(a[i + 1..], b, ab[i + 1..]);
      Regrouped(StripCr(a[..i]), Lines(a[i + 1..]), Lines(b));
    }
  }

  lemma Regrouped<T>(x: T, a: seq<T>, b: seq<T>)
    ensures [x] + (a + b) == ([x] + a) + b
  {
  }

  lemma {:induction false} SameFirstNewline(a: string, ab: string)
    requires a <= ab && IndexOfNewline(a) < |a|
    ensures IndexOfNewline(ab) == IndexOfNewline(a) && ab[..IndexOfNewline(a)] == a[..IndexOfNewline(a)]
  {
    if a[0] != '\n' {
      SameFirstNewline(a[1..], ab[1..]);
    }
  }

  lemma NewlineFound(a: string)
    requires '\n' in a
    ensures IndexOfNewline(a) < |a|
  {
    assert a[..|a|] == a;
  }

  lemma LinesUnfold(line: string, rest: string)
    requires '\n' !in line
    ensures Lines(line + "\n" + rest) == [StripCr(line)] + Lines(rest)
  {
    FirstNewline(line, rest);
    var text := line + "\n" + rest;
    assert text[..|line|] == line && text[|line| + 1..] == rest;
  }

  /** Splitting a diff at a `diff --git ` line splits its summary. */
  lemma ParseDistributes(alnum: char -> bool, a: string, b: string)
    requires a == "" || a[|a| - 1] == '\n'
    requires b == "" || StartsWith(b, "diff --git ")
    ensures Summarize(alnum, a + b) == Plus(Summarize(alnum, a), Summarize(alnum, b))
  {
    LinesConcat(a, b, a + b);
    ParseAppend(alnum, START, Lines(a), Lines(b));
    var at := ParseLines(alnum, START, Lines(a));
    if b == "" {
      PlusAssociative(at.sum, at.sum, at.sum);
    } else {
      GitHeaderFirst(b);
      ParseFromGitHeader(alnum, at, Lines(b));
    }
  }

  /** Nothing before a `diff --git ` line influences what follows it. */
  lemma ParseFromGitHeader(alnum: char -> bool, at: Cursor, lines: seq<string>)
    requires lines != [] && StartsWith(lines[0], "diff --git ")
    ensures ParseLines(alnum, at, lines).sum == Plus(at.sum, ParseLines(alnum, START, lines).sum)
  {
    var line, rest := lines[0], lines[1..];
    assert lines == [line] + rest;
    ParseAppend(alnum, START, [line], rest);
    ParseAppend(alnum, at, [line], rest);
    ParseOne(alnum, START, line);
    ParseOne(alnum, at, line);
    PlusAssociative(at.sum, at.sum, at.sum);
    assert ParseLine(alnum, START, line) == START;
    ParseShift(alnum, at.sum, START, rest);
  }

  lemma GitHeaderFirst(b: string)
    requires StartsWith(b, "diff --git ")
    ensures StartsWith(Lines(b)[0], "diff --git ")
  {
    var i := IndexOfNewline(b);
    if i < |b| {
      PrefixIgnoresCrAny(b[..i], "diff --git ");
    }
  }

  lemma PrefixIgnoresCrAny(line: string, prefix: string)
    requires '\r' !in prefix
    ensures StartsWith(StripCr(line), prefix) == StartsWith(line, prefix)
  {
    if StripCr(line) != line {
      PrefixIgnoresCr(line, prefix);
    }
  }

  lemma PatchCounts(alnum: char -> bool, at: Cursor, p: Patch)
    requires p.Patch?
    ensures var path := if at.inHunk then at.path else PathOf(p.newPath);
            var after, sum := ParseLines(alnum, at, RenderPatch(p)), HunksSum(alnum, path, p.hunks);
            var extra := if at.inHunk then 1 else 0;
            && after.path == path && after.inHunk == (at.inHunk || p.hunks != [])
            && after.sum.added == at.sum.added + sum.added + extra
                  && after.sum.deleted == at.sum.deleted + sum.deleted + extra
  {
    ParsePatch(alnum, at, p);
  }

  /**
   The `diff --git ` line is what separates files: two patches printed one after the other without it
   are counted right exactly when the first one has no hunk. Otherwise the second patch's two name
   lines are taken for one deleted and one added line.
  */
  lemma NameLinesNeedGitHeader(alnum: char -> bool, first: Patch, second: Patch)
    requires first.Patch? && second.Patch?
    ensures var sum := ParseLines(alnum, START, RenderPatch(first) + RenderPatch(second)).sum;
            var path := if first.hunks == [] then PathOf(second.newPath) else PathOf(first.newPath);
            var right := Plus(HunksSum(alnum, PathOf(first.newPath), first.hunks), HunksSum(alnum, path, second.hunks));
            var extra := if first.hunks == [] then 0 else 1;
            sum.added == right.added + extra && sum.deleted == right.deleted + extra
  {
    var at := ParseLines(alnum, START, RenderPatch(first));
    ParseAppend(alnum, START, RenderPatch(first), RenderPatch(second));
    PatchCounts(alnum, START, first);
    PatchCounts(alnum, at, second);
  }

  // ---------------------------------------------------------------- counts and normalisation

  lemma {:induction false} CursorsAgree(p: char -> bool, q: char -> bool, lines: seq<string>)
    ensures var a, b := ParseLines(p, START, lines), ParseLines(q, START, lines);
            a.path == b.path && a.inHunk == b.inHunk && a.sum.added == b.sum.added && a.sum.deleted == b.sum.deleted
    decreases |lines|
  {
    if lines != [] {
      CursorsAgree(p, q, lines[..|lines| - 1]);
    }
  }

  /** Which characters count as alphanumeric only matters for fingerprints. */
  lemma CountsIgnoreAlphabet(alnum: char -> bool, text: string)
    ensures LineCounts(text) == (Summarize(alnum, text).added, Summarize(alnum, text).deleted)
  {
    CursorsAgree(alnum, c => false, Lines(text));
  }

  /** A normalised line is its own normal form, so white space never distinguishes two fingerprints. */
  lemma NormalizeIdempotent(alnum: char -> bool, line: string)
    requires NormalizeEffectiveLine(alnum, line).Some?
    ensures NormalizeEffectiveLine(alnum, NormalizeEffectiveLine(alnum, line).value)
         == NormalizeEffectiveLine(alnum, line)
  {
    WordsAreWords(line);
    WordsOfJoined(Words(line));
  }
}
