/** Trimming and splitting at white space, as `str::trim` and `str::split_whitespace` do. */
module WhiteSpace {

  /** The Unicode `White_Space` property. */
  predicate IsSpace(c: char) {
    '\t' <= c <= '\r' || c == ' ' || c == '\U{0085}' || c == '\U{00A0}' || c == '\U{1680}'
    || '\U{2000}' <= c <= '\U{200A}' || c == '\U{2028}' || c == '\U{2029}' || c == '\U{202F}'
    || c == '\U{205F}' || c == '\U{3000}'
  }

  function TrimEnd(s: string): string {
    if s != "" && IsSpace(s[|s| - 1]) then TrimEnd(s[..|s| - 1]) else s
  }

  function TrimStart(s: string): string {
    if s != "" && IsSpace(s[0]) then TrimStart(s[1..]) else s
  }

  /** White space is taken off one end, all of it and nothing else. */
  lemma {:induction false} TrimEndMeans(s: string)
    ensures var t := TrimEnd(s);
            t <= s && (forall i | |t| <= i < |s| :: IsSpace(s[i])) && (t != "" ==> !IsSpace(t[|t| - 1]))
    decreases |s|
  {
    if s != "" && IsSpace(s[|s| - 1]) {
      var front := s[..|s| - 1];
      TrimEndMeans(front);
      assert forall i | 0 <= i < |front| :: front[i] == s[i];
    }
  }

  lemma {:induction false} TrimStartMeans(s: string)
    ensures var t := TrimStart(s); var n := |s| - |t|;
            n >= 0 && t == s[n..] && (forall i | 0 <= i < n :: IsSpace(s[i])) && (t != "" ==> !IsSpace(t[0]))
    decreases |s|
  {
    if s != "" && IsSpace(s[0]) {
      TrimStartMeans(s[1..]);
      assert forall i | 0 < i < |s| :: s[i] == s[1..][i - 1];
    }
  }

  /** `split_whitespace`: the maximal runs of non-space characters. */
  function Words(s: string): (ws: seq<string>)
    ensures s != "" && !IsSpace(s[|s| - 1]) ==> ws != []
  {
    if s == "" then []
    else
      var front, c := s[..|s| - 1], s[|s| - 1];
      var ws := Words(front);
      if IsSpace(c) then ws
      else if front == "" || IsSpace(front[|front| - 1]) then ws + [[c]]
      else ws[..|ws| - 1] + [ws[|ws| - 1] + [c]]
  }

  function JoinWords(ws: seq<string>): string {
    if ws == [] then "" else if |ws| == 1 then ws[0]
    else JoinWords(ws[..|ws| - 1]) + " " + ws[|ws| - 1]
  }

  predicate IsWord(w: string) {
    w != "" && forall i | 0 <= i < |w| :: !IsSpace(w[i])
  }

  lemma {:induction false} WordsAreWords(s: string)
    ensures forall w | w in Words(s) :: IsWord(w)
    decreases |s|
  {
    if s != "" {
      WordsAreWords(s[..|s| - 1]);
      var ws, c := Words(s[..|s| - 1]), s[|s| - 1];
      if ws != [] {
        assert ws[|ws| - 1] in ws;
        assert !IsSpace(c) ==> IsWord(ws[|ws| - 1] + [c]);
      }
      assert forall w | w in Words(s) :: w in ws || w == [c] || (ws != [] && w == ws[|ws| - 1] + [c]);
    }
  }

  lemma WordsSnoc(s: string, c: char)
    requires !IsSpace(c)
    ensures Words(s + [c]) == if s == "" || IsSpace(s[|s| - 1]) then Words(s) + [[c]]
                              else Words(s)[..|Words(s)| - 1] + [Words(s)[|Words(s)| - 1] + [c]]
  {
    assert (s + [c])[..|s|] == s;
  }

  lemma {:induction false} WordsOfWord(s: string, w: string)
    requires IsWord(w) && (s == "" || IsSpace(s[|s| - 1]))
    ensures Words(s + w) == Words(s) + [w]
    decreases |w|
  {
    var front, c := w[..|w| - 1], w[|w| - 1];
    assert w == front + [c] && s + w == (s + front) + [c];
    WordsSnoc(s + front, c);
    if front == "" {
      assert s + front == s;
    } else {
      WordsOfWord(s, front);
      assert (Words(s) + [front])[..|Words(s)|] == Words(s);
    }
  }

  lemma {:induction false} WordsOfJoined(ws: seq<string>)
    requires forall w | w in ws :: IsWord(w)
    ensures Words(JoinWords(ws)) == ws
    decreases |ws|
  {
    if ws != [] {
      var front, last := ws[..|ws| - 1], ws[|ws| - 1];
      assert ws == front + [last];
      if front == [] {
        assert "" + last == last == JoinWords(ws);
        WordsOfWord("", last);
      } else {
        WordsOfJoined(front);
        WordsSpace(JoinWords(front));
        WordsOfWord(JoinWords(front) + " ", last);
      }
    }
  }

  lemma WordsSpace(s: string)
    ensures Words(s + " ") == Words(s)
  {
    assert (s + " ")[..|s|] == s;
  }

  /** The first word of a text that starts with one. */
  lemma {:induction false} FirstWord(w: string, tail: string)
    requires IsWord(w) && (tail == "" || IsSpace(tail[0]))
    ensures var ws := Words(w + tail);
            ws != [] && ws[0] == w && (tail != "" && !IsSpace(tail[|tail| - 1]) ==> |ws| >= 2)
    decreases |tail|
  {
    if tail == "" {
      assert w + tail == w == "" + w;
      WordsOfWord("", w);
    } else {
      var front, c := tail[..|tail| - 1], tail[|tail| - 1];
      assert w + tail == (w + front) + [c];
      FirstWord(w, front);
      assert ((w + front) + [c])[..|w + front|] == w + front;
      if !IsSpace(c) {
        WordsSnoc(w + front, c);
        assert front != "" && (w + front)[|w + front| - 1] == front[|front| - 1];
      }
    }
  }

  lemma {:induction false} NoWordsIff(s: string)
    ensures Words(s) == [] <==> forall i | 0 <= i < |s| :: IsSpace(s[i])
  {
    if s != "" {
      NoWordsIff(s[..|s| - 1]);
      assert forall i | 0 <= i < |s| - 1 :: s[..|s| - 1][i] == s[i];
    }
  }

  function Concat(ws: seq<string>): string {
    if ws == [] then "" else Concat(ws[..|ws| - 1]) + ws[|ws| - 1]
  }

  function Solid(s: string): string {
    if s == "" then "" else Solid(s[..|s| - 1]) + (if IsSpace(s[|s| - 1]) then "" else [s[|s| - 1]])
  }

  /** Splitting loses nothing but the white space. */
  lemma {:induction false} WordsKeepText(s: string)
    ensures Concat(Words(s)) == Solid(s)
    decreases |s|
  {
    if s != "" {
      var front, c := s[..|s| - 1], s[|s| - 1];
      WordsKeepText(front);
      var ws, all := Words(front), Words(s);
      if !IsSpace(c) {
        if front == "" || IsSpace(front[|front| - 1]) {
          assert all[..|all| - 1] == ws;
        } else {
          assert all[..|all| - 1] == ws[..|ws| - 1];
          assert Concat(ws[..|ws| - 1]) + (ws[|ws| - 1] + [c]) == Concat(ws) + [c];
        }
      }
    }
  }
}
