/** The string operations of the Rust standard library that the agent and alert code use. */
module Text {
  import opened Wrappers

  /** `char::is_whitespace`: the Unicode property White_Space. */
  predicate IsWhitespace(c: char) {
    || '\t' <= c <= '\r'
    || c == ' '
    || c == '\U{85}' || c == '\U{A0}' || c == '\U{1680}'
    || '\U{2000}' <= c <= '\U{200A}'
    || c == '\U{2028}' || c == '\U{2029}' || c == '\U{202F}' || c == '\U{205F}' || c == '\U{3000}'
  }

  /** `str::trim_start` */
  function TrimStart(s: string): (r: string)
    ensures |r| <= |s|
  {
    if s != [] && IsWhitespace(s[0]) then TrimStart(s[1..]) else s
  }

  /** `str::trim_end` */
  function TrimEnd(s: string): (r: string)
    ensures |r| <= |s|
  {
    if s != [] && IsWhitespace(s[|s| - 1]) then TrimEnd(s[..|s| - 1]) else s
  }

  /** `str::trim` */
  function Trim(s: string): (r: string)
    ensures |r| <= |s|
  {
    TrimEnd(TrimStart(s))
  }

  /** Nothing to trim on either side. */
  predicate Trimmed(s: string) {
    s != [] ==> !IsWhitespace(s[0]) && !IsWhitespace(s[|s| - 1])
  }

  lemma {:induction false} TrimStartFacts(s: string)
    ensures var r := TrimStart(s); r == s[|s| - |r|..] && (r != [] ==> !IsWhitespace(r[0]))
  {
    if s != [] && IsWhitespace(s[0]) {
      TrimStartFacts(s[1..]);
    }
  }

  lemma {:induction false} TrimEndFacts(s: string)
    ensures var r := TrimEnd(s); r == s[..|r|] && (r != [] ==> !IsWhitespace(r[|r| - 1]))
  {
    if s != [] && IsWhitespace(s[|s| - 1]) {
      TrimEndFacts(s[..|s| - 1]);
    }
  }

  /** Trimming keeps a visible-ended part of the text. */
  lemma TrimFacts(s: string)
    ensures Trimmed(Trim(s))
    ensures forall i :: 0 <= i < |Trim(s)| ==> Trim(s)[i] == s[|s| - |TrimStart(s)| + i]
  {
    var t := TrimStart(s);
    TrimStartFacts(s);
    TrimEndFacts(t);
  }

  lemma Visible(s: string)
    requires s == [] || !IsWhitespace(s[0])
    ensures TrimStart(s) == s
  {
  }

  /** Trimmed text is its own trimmed form. */
  lemma TrimmedIsFixed(s: string)
    requires Trimmed(s)
    ensures Trim(s) == s
  {
  }

  /** `str::replace` of one character. */
  function Replace(s: string, c: char, with: string): string {
    if s == [] then []
    else (if s[0] == c then with else [s[0]]) + Replace(s[1..], c, with)
  }

  lemma {:induction false} ReplaceAppend(s: string, t: string, c: char, with: string)
    ensures Replace(s + t, c, with) == Replace(s, c, with) + Replace(t, c, with)
  {
    if s == [] {
      assert s + t == t;
    } else {
      assert (s + t)[1..] == s[1..] + t;
      ReplaceAppend(s[1..], t, c, with);
    }
  }

  /** `[String]::join` */
  function Join(parts: seq<string>, separator: string): string {
    if parts == [] then []
    else if |parts| == 1 then parts[0]
    else parts[0] + separator + Join(parts[1..], separator)
  }

  lemma Assoc<T>(a: seq<T>, b: seq<T>, c: seq<T>)
    ensures a + (b + c) == a + b + c
  {
  }

  /** All parts in one. */
  function Concat(parts: seq<string>): string {
    if parts == [] then [] else parts[0] + Concat(parts[1..])
  }

  lemma {:induction false} ConcatAppend(a: seq<string>, b: seq<string>)
    ensures Concat(a + b) == Concat(a) + Concat(b)
  {
    if a == [] {
      assert a + b == b;
    } else {
      assert (a + b)[1..] == a[1..] + b;
      ConcatAppend(a[1..], b);
    }
  }

  /** The length of the first run of visible characters. */
  function WordEnd(s: string): (n: nat)
    ensures n <= |s|
    ensures s != [] && !IsWhitespace(s[0]) ==> n > 0
  {
    if s == [] || IsWhitespace(s[0]) then 0 else 1 + WordEnd(s[1..])
  }

  /** `str::split_whitespace` */
  function SplitWhitespace(s: string): seq<string>
    decreases |s|
  {
    if s == [] then []
    else if IsWhitespace(s[0]) then SplitWhitespace(s[1..])
    else [s[..WordEnd(s)]] + SplitWhitespace(s[WordEnd(s)..])
  }

  /** Words: visible characters, at least one each. */
  ghost predicate Words(ws: seq<string>) {
    forall i :: 0 <= i < |ws| ==> ws[i] != [] && forall k :: 0 <= k < |ws[i]| ==> !IsWhitespace(ws[i][k])
  }

  lemma {:induction false} WordEndVisible(s: string)
    ensures forall k :: 0 <= k < WordEnd(s) ==> !IsWhitespace(s[k])
  {
    if s != [] && !IsWhitespace(s[0]) {
      WordEndVisible(s[1..]);
      assert forall k :: 0 < k < |s| ==> s[k] == s[1..][k - 1];
    }
  }

  lemma {:induction false} SplitAreWords(s: string)
    ensures Words(SplitWhitespace(s))
    decreases |s|
  {
    hide IsWhitespace;
    if s != [] {
      if IsWhitespace(s[0]) {
        SplitAreWords(s[1..]);
      } else {
        WordEndVisible(s);
        SplitAreWords(s[WordEnd(s)..]);
      }
    }
  }

  lemma {:induction false} WordEndOf(w: string, rest: string)
    requires forall k :: 0 <= k < |w| ==> !IsWhitespace(w[k])
    requires rest == [] || IsWhitespace(rest[0])
    ensures WordEnd(w + rest) == |w|
  {
    if w == [] {
      assert w + rest == rest;
    } else {
      assert (w + rest)[1..] == w[1..] + rest;
      WordEndOf(w[1..], rest);
    }
  }

  /** A word in front of a space, or of nothing, is split off. */
  lemma SplitWord(w: string, rest: string)
    requires w != [] && (forall k :: 0 <= k < |w| ==> !IsWhitespace(w[k]))
    requires rest == [] || IsWhitespace(rest[0])
    ensures SplitWhitespace(w + rest) == [w] + SplitWhitespace(rest)
  {
    WordEndOf(w, rest);
    assert (w + rest)[..|w|] == w && (w + rest)[|w|..] == rest;
  }

  /** Words joined by spaces are split into the same words again. */
  lemma {:induction false} SplitJoined(ws: seq<string>)
    requires Words(ws)
    ensures SplitWhitespace(Join(ws, " ")) == ws
    decreases |ws|
  {
    hide WordEnd;
    if ws != [] {
      var w, rest := ws[0], ws[1..];
      if rest == [] {
        SplitWord(w, []);
        assert w + [] == w;
      } else {
        var tail := " " + Join(rest, " ");
        assert Join(ws, " ") == w + tail by { Assoc(w, " ", Join(rest, " ")); }
        SplitWord(w, tail);
        assert tail[1..] == Join(rest, " ");
        SplitJoined(rest);
      }
      assert ws == [w] + rest;
    }
  }

  // ----- What splitting means -----

  predicate Blank(s: string) { forall k :: 0 <= k < |s| ==> IsWhitespace(s[k]) }

  /** The text is these words, apart from blanks: before, between and behind them. */
  ghost predicate Spaced(s: string, ws: seq<string>)
    decreases |ws|
  {
    if ws == [] then Blank(s)
    else exists gap, rest :: Blank(gap) && s == gap + (ws[0] + rest) && (rest == [] || IsWhitespace(rest[0])) && Spaced(rest, ws[1..])
  }

  lemma {:induction false} SplitBlank(gap: string, s: string)
    requires Blank(gap)
    ensures SplitWhitespace(gap + s) == SplitWhitespace(s)
    decreases |gap|
  {
    hide WordEnd;
    if gap == [] {
      assert gap + s == s;
    } else {
      assert (gap + s)[1..] == gap[1..] + s;
      SplitBlank(gap[1..], s);
    }
  }

  lemma {:induction false} SpacedSplits(s: string, ws: seq<string>)
    requires Words(ws) && Spaced(s, ws)
    ensures SplitWhitespace(s) == ws
    decreases |ws|
  {
    hide SplitWhitespace, WordEnd;
    if ws == [] {
      SplitBlank(s, []);
      assert s + [] == s && SplitWhitespace([]) == [] by { NoWords(); }
    } else {
      var gap, rest :| Blank(gap) && s == gap + (ws[0] + rest) && (rest == [] || IsWhitespace(rest[0])) && Spaced(rest, ws[1..]);
      SplitBlank(gap, ws[0] + rest);
      SplitWord(ws[0], rest);
      SpacedSplits(rest, ws[1..]);
    }
  }

  lemma NoWords()
    ensures SplitWhitespace([]) == []
  {
  }

  lemma {:induction false} SplitIsSpaced(s: string)
    ensures Spaced(s, SplitWhitespace(s))
    decreases |s|
  {
    hide IsWhitespace;
    var ws := SplitWhitespace(s);
    if s != [] {
      if IsWhitespace(s[0]) {
        SplitIsSpaced(s[1..]);
        MoreBlank(s[0], s[1..], ws);
        assert [s[0]] + s[1..] == s;
      } else {
        var n := WordEnd(s);
        SplitIsSpaced(s[n..]);
        WordStops(s);
        assert ws[0] == s[..n] && ws[1..] == SplitWhitespace(s[n..]);
        assert Blank([]) && s == [] + (s[..n] + s[n..]);
      }
    }
  }

  lemma {:induction false} WordStops(s: string)
    ensures s[WordEnd(s)..] == [] || IsWhitespace(s[WordEnd(s)..][0])
  {
    if s != [] && !IsWhitespace(s[0]) {
      WordStops(s[1..]);
      assert s[1..][WordEnd(s[1..])..] == s[WordEnd(s)..];
    }
  }

  lemma MoreBlank(c: char, s: string, ws: seq<string>)
    requires IsWhitespace(c) && Spaced(s, ws)
    ensures Spaced([c] + s, ws)
  {
    hide IsWhitespace;
    if ws != [] {
      var gap, rest :| Blank(gap) && s == gap + (ws[0] + rest) && (rest == [] || IsWhitespace(rest[0])) && Spaced(rest, ws[1..]);
      assert [c] + s == ([c] + gap) + (ws[0] + rest) && Blank([c] + gap);
    }
  }

  /** Splitting gives exactly the words, runs of visible characters, that the text is made of. */
  lemma SplitExactly(s: string, ws: seq<string>)
    ensures SplitWhitespace(s) == ws <==> Words(ws) && Spaced(s, ws)
  {
    SplitAreWords(s);
    SplitIsSpaced(s);
    if Words(ws) && Spaced(s, ws) {
      SpacedSplits(s, ws);
    }
  }
}
