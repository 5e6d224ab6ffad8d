/** Which texts are matchers: exactly the ones this grammar describes. */
module MatcherTexts {
  import opened Wrappers
  import opened Text
  import opened Matchers

  // ----- The grammar -----

  /** The text between quotes stands for the value: a backslash before a character stands for it, and
      every other character for itself, but quotes and backslashes. */
  predicate Escapes(body: string, value: string)
    decreases |body|
  {
    if body == [] then value == []
    else if body[0] == '\\' then |body| >= 2 && value != [] && value[0] == body[1] && Escapes(body[2..], value[1..])
    else body[0] != '"' && value != [] && value[0] == body[0] && Escapes(body[1..], value[1..])
  }

  /** How a value is written: in quotes, or bare, when it has no comma, starts with no quote, and has no
      blank on either side. */
  ghost predicate Writes(text: string, value: string) {
    || (exists body :: text == "\"" + body + "\"" && Escapes(body, value))
    || (text == value && Trimmed(text) && ',' !in text && (text == [] || text[0] != '"'))
  }

  /** What may follow a matcher: nothing; or a comma, blanks, and the rest. */
  ghost predicate Follows(tail: string, rest: string) {
    || (tail == [] && rest == [])
    || (tail != [] && tail[0] == ',' && (rest == [] || !IsWhitespace(rest[0])) && exists gap :: Blank(gap) && tail[1..] == gap + rest)
  }

  predicate IsName(name: string, host: Host) {
    && name != [] && Trimmed(name) && (forall k :: 0 <= k < |name| ==> name[k] != '=' && name[k] != '!')
    && forall k :: 0 <= k < |name| ==>
         host.alphanumeric(name[k]) || name[k] == '_' || name[k] == '.' || name[k] == '/' || name[k] == '-'
  }

  predicate Sign(op: MatchOp, sign: string) {
    match op
    case Equal => sign == "="
    case NotEqual => sign == "!="
    case Regex => sign == "=~"
    case NotRegex => sign == "!~"
  }

  /** The parts of a matcher's text: its name, its operator and its value, with blanks anywhere around. */
  datatype Parts = Parts(before: string, sign: string, middle: string, text: string, after: string, lead: string)

  function Whole(p: Parts, name: string): string {
    p.lead + (name + (p.before + (p.sign + (p.middle + (p.text + p.after)))))
  }

  ghost predicate Spells(p: Parts, m: Matcher, host: Host) {
    && Blank(p.lead) && Blank(p.before) && Blank(p.middle) && Blank(p.after)
    && IsName(m.name, host) && Sign(m.op, p.sign) && Writes(p.text, m.value)
    && (m.op == Equal && p.middle == [] && p.text != [] ==> p.text[0] != '~')
    && ((m.op == Regex || m.op == NotRegex) ==> host.compiles(m.value))
  }

  /** The text is a matcher and then the rest. */
  ghost predicate Starts(s: string, m: Matcher, rest: string, host: Host) {
    exists p, tail :: Spells(p, m, host) && Follows(tail, rest) && s == Whole(p, m.name) + tail
  }

  /** The text is these matchers, separated by commas; one may follow the last. */
  ghost predicate Reads(s: string, ms: seq<Matcher>, host: Host)
    decreases |ms|
  {
    if ms == [] then s == [] else exists rest :: Starts(s, ms[0], rest, host) && Reads(rest, ms[1..], host)
  }

  // ----- Blanks -----

  lemma {:induction false} TrimStartOf(gap: string, s: string)
    requires Blank(gap) && (s == [] || !IsWhitespace(s[0]))
    ensures TrimStart(gap + s) == s
  {
    hide IsWhitespace;
    if gap == [] {
      assert gap + s == s;
    } else {
      assert (gap + s)[1..] == gap[1..] + s;
      TrimStartOf(gap[1..], s);
    }
  }

  lemma OneBlank(c: char, gap: string)
    requires IsWhitespace(c) && Blank(gap)
    ensures Blank([c] + gap)
  {
    hide IsWhitespace;
  }

  lemma {:induction false} TrimStartParts(s: string) returns (gap: string)
    ensures Blank(gap) && s == gap + TrimStart(s) && (TrimStart(s) == [] || !IsWhitespace(TrimStart(s)[0]))
  {
    assert Blank([]);
    hide IsWhitespace, Blank;
    if s != [] && IsWhitespace(s[0]) {
      var rest := TrimStartParts(s[1..]);
      gap := [s[0]] + rest;
      assert s == [s[0]] + s[1..];
      assert s == gap + TrimStart(s[1..]);
      OneBlank(s[0], rest);
    } else {
      gap := [];
    }
  }

  lemma {:induction false} TrimEndOf(s: string, gap: string)
    requires Blank(gap) && (s == [] || !IsWhitespace(s[|s| - 1]))
    ensures TrimEnd(s + gap) == s
    decreases |gap|
  {
    hide IsWhitespace;
    if gap == [] {
      assert s + gap == s;
    } else {
      var front := gap[..|gap| - 1];
      assert (s + gap)[..|s + gap| - 1] == s + front;
      TrimEndOf(s, front);
    }
  }

  lemma {:induction false} TrimEndParts(s: string) returns (gap: string)
    ensures Blank(gap) && s == TrimEnd(s) + gap
  {
    hide IsWhitespace;
    if s != [] && IsWhitespace(s[|s| - 1]) {
      gap := TrimEndParts(s[..|s| - 1]);
      assert s == s[..|s| - 1] + [s[|s| - 1]];
      gap := gap + [s[|s| - 1]];
    } else {
      gap := [];
    }
  }

  lemma BlankTrims(gap: string)
    requires Blank(gap)
    ensures Trim(gap) == []
  {
    assert gap + [] == gap;
    TrimStartOf(gap, []);
  }

  lemma TrimOf(a: string, s: string, b: string)
    requires Blank(a) && Blank(b) && Trimmed(s)
    ensures Trim(a + (s + b)) == s
  {
    if s == [] {
      assert a + (s + b) == a + b && Blank(a + b);
      BlankTrims(a + b);
    } else {
      TrimStartOf(a, s + b);
      TrimEndOf(s, b);
    }
  }

  lemma TrimParts(s: string) returns (a: string, b: string)
    ensures Blank(a) && Blank(b) && s == a + (Trim(s) + b) && Trimmed(Trim(s))
  {
    a := TrimStartParts(s);
    b := TrimEndParts(TrimStart(s));
    TrimFacts(s);
  }

  // ----- Quotes and commas -----

  /** A value between quotes is read to the first quote that is not escaped. */
  lemma {:induction false} UnquoteReads(body: string, value: string, after: string)
    requires Escapes(body, value)
    ensures Unquote(body + ("\"" + after)) == Some(Quote(value, after))
    decreases |body|
  {
    var s := body + ("\"" + after);
    if body == [] {
      assert s == "\"" + after && s[1..] == after;
    } else if body[0] == '\\' {
      assert s[2..] == body[2..] + ("\"" + after) && s[1] == body[1] && s[0] == body[0];
      UnquoteReads(body[2..], value[1..], after);
      assert [value[0]] + value[1..] == value;
    } else {
      assert s[1..] == body[1..] + ("\"" + after) && s[0] == body[0];
      UnquoteReads(body[1..], value[1..], after);
      assert [value[0]] + value[1..] == value;
    }
  }

  lemma {:induction false} UnquoteSplits(s: string) returns (body: string)
    requires Unquote(s).Some?
    ensures Escapes(body, Unquote(s).value.value) && s == body + ("\"" + Unquote(s).value.after)
    decreases |s|
  {
    hide Escapes;
    if s[0] == '"' {
      body := [];
      assert Escapes([], []) by { NothingEscapes(); }
      assert s == [s[0]] + s[1..];
    } else if s[0] == '\\' {
      var rest := UnquoteSplits(s[2..]);
      body := ['\\', s[1]] + rest;
      EscapedSplits(s, rest);
    } else {
      var rest := UnquoteSplits(s[1..]);
      body := [s[0]] + rest;
      PlainSplits(s, rest);
    }
  }

  lemma NothingEscapes()
    ensures Escapes([], [])
  {
  }

  lemma EscapedSplits(s: string, rest: string)
    requires |s| > 1 && s[0] == '\\' && Unquote(s[2..]).Some?
    requires var q := Unquote(s[2..]).value; Escapes(rest, q.value) && s[2..] == rest + ("\"" + q.after)
    ensures Unquote(s).Some? && Escapes(['\\', s[1]] + rest, Unquote(s).value.value)
    ensures s == (['\\', s[1]] + rest) + ("\"" + Unquote(s).value.after)
  {
    hide Escapes, Unquote;
    var q := Unquote(s[2..]).value;
    EscapedReads(s);
    SlashEscapes(s[1], rest, q.value);
    assert s == [s[0], s[1]] + s[2..];
    assert s == (['\\', s[1]] + rest) + ("\"" + q.after);
  }

  lemma PlainSplits(s: string, rest: string)
    requires s != [] && s[0] != '\\' && s[0] != '"' && Unquote(s[1..]).Some?
    requires var q := Unquote(s[1..]).value; Escapes(rest, q.value) && s[1..] == rest + ("\"" + q.after)
    ensures Unquote(s).Some? && Escapes([s[0]] + rest, Unquote(s).value.value)
    ensures s == ([s[0]] + rest) + ("\"" + Unquote(s).value.after)
  {
    hide Escapes, Unquote;
    var q := Unquote(s[1..]).value;
    PlainReads(s);
    PlainEscapes(s[0], rest, q.value);
    assert s == [s[0]] + s[1..];
    assert s == ([s[0]] + rest) + ("\"" + q.after);
  }

  lemma PlainReads(s: string)
    requires s != [] && s[0] != '\\' && s[0] != '"' && Unquote(s[1..]).Some?
    ensures var q := Unquote(s[1..]).value; Unquote(s) == Some(Quote([s[0]] + q.value, q.after))
  {
  }

  lemma EscapedReads(s: string)
    requires |s| > 1 && s[0] == '\\' && Unquote(s[2..]).Some?
    ensures var q := Unquote(s[2..]).value; Unquote(s) == Some(Quote([s[1]] + q.value, q.after))
  {
  }

  lemma PlainEscapes(c: char, body: string, value: string)
    requires c != '\\' && c != '"' && Escapes(body, value)
    ensures Escapes([c] + body, [c] + value)
  {
    assert ([c] + body)[1..] == body && ([c] + value)[1..] == value;
  }

  lemma SlashEscapes(c: char, body: string, value: string)
    requires Escapes(body, value)
    ensures Escapes(['\\', c] + body, [c] + value)
  {
    assert (['\\', c] + body)[2..] == body && ([c] + value)[1..] == value;
  }

  /** A bare value ends at the first comma, or at the end. */
  lemma {:induction false} CommaIsFirst(s: string)
    ensures forall k :: 0 <= k < CommaAt(s) ==> s[k] != ','
    ensures CommaAt(s) < |s| ==> s[CommaAt(s)] == ','
  {
    if s != [] && s[0] != ',' {
      CommaIsFirst(s[1..]);
      assert forall k :: 0 < k < CommaAt(s) ==> s[k] == s[1..][k - 1];
    }
  }

  lemma CommaAfter(s: string, tail: string)
    requires ',' !in s && (tail == [] || tail[0] == ',')
    ensures CommaAt(s + tail) == |s|
  {
    CommaIsFirst(s + tail);
    assert forall k :: 0 <= k < |s| ==> (s + tail)[k] == s[k];
    if tail != [] { assert (s + tail)[|s|] == ','; }
  }

  // ----- Values -----

  lemma NoCommaInBlank(gap: string)
    requires Blank(gap)
    ensures ',' !in gap && '"' !in gap && '=' !in gap && '!' !in gap && '~' !in gap
  {
  }

  lemma CommaVisible()
    ensures !IsWhitespace(',') && !IsWhitespace('"')
  {
  }

  lemma QuotedReads(middle: string, body: string, value: string, after: string, tail: string)
    requires Blank(middle) && Blank(after) && Escapes(body, value) && (tail == [] || tail[0] == ',')
    ensures Value(TrimStart(middle + (("\"" + body + "\"") + (after + tail)))) == Some(Quote(value, after + tail))
  {
    hide IsWhitespace, Unquote, Trim, TrimStart, Escapes, CommaAt;
    CommaVisible();
    var s := ("\"" + body + "\"") + (after + tail);
    assert s[0] == '"' && s[1..] == body + ("\"" + (after + tail));
    TrimStartOf(middle, s);
    UnquoteReads(body, value, after + tail);
  }

  lemma BareEmptyReads(middle: string, after: string, tail: string)
    requires Blank(middle) && Blank(after) && (tail == [] || tail[0] == ',')
    ensures Value(TrimStart(middle + ([] + (after + tail)))) == Some(Quote([], tail))
  {
    hide IsWhitespace, Trim, TrimStart, CommaAt, Unquote;
    CommaVisible();
    var gap: string := middle + after;
    assert middle + ([] + (after + tail)) == gap + tail && Blank(gap);
    TrimStartOf(gap, tail);
    CommaAfter([], tail);
    assert [] + tail == tail && tail[..0] == [] && tail[0..] == tail;
    BlankTrims([]);
  }

  lemma BareTextReads(middle: string, text: string, after: string, tail: string)
    requires Blank(middle) && Blank(after) && (tail == [] || tail[0] == ',')
    requires text != [] && Trimmed(text) && ',' !in text && text[0] != '"'
    ensures Value(TrimStart(middle + (text + (after + tail)))) == Some(Quote(text, tail))
  {
    hide Trim, TrimStart, CommaAt, Unquote, IsWhitespace;
    NoCommaInBlank(after);
    var s, front := text + (after + tail), text + after;
    assert s[0] == text[0] && s == front + tail && ',' !in front;
    TrimStartOf(middle, s);
    CommaAfter(front, tail);
    assert s[..|front|] == front && s[|front|..] == tail && front == [] + (text + after);
    TrimOf([], text, after);
  }

  /** A written value, with blanks around it, is read; what follows it is left, but for the blanks. */
  lemma ValueReads(middle: string, text: string, after: string, tail: string, value: string)
    requires Blank(middle) && Blank(after) && Writes(text, value) && (tail == [] || tail[0] == ',')
    ensures var q := Value(TrimStart(middle + (text + (after + tail))));
            q.Some? && q.value.value == value && TrimStart(q.value.after) == tail
  {
    hide IsWhitespace, Trim, TrimStart, Value, Escapes;
    CommaVisible();
    TrimStartOf(after, tail);
    TrimStartOf([], tail);
    assert [] + tail == tail;
    if body :| text == "\"" + body + "\"" && Escapes(body, value) {
      QuotedReads(middle, body, value, after, tail);
    } else if text == [] {
      BareEmptyReads(middle, after, tail);
    } else {
      BareTextReads(middle, text, after, tail);
    }
  }

  lemma NoFrontBlank(a: string, s: string)
    requires Blank(a) && (a + s == [] || !IsWhitespace((a + s)[0]))
    ensures a == []
  {
    assert forall k :: 0 <= k < |a| ==> (a + s)[k] == a[k];
  }

  lemma QuotedSplits(t: string) returns (text: string)
    requires t != [] && t[0] == '"' && Unquote(t[1..]).Some?
    ensures var q := Unquote(t[1..]).value;
            Writes(text, q.value) && t == text + q.after && text != [] && text[0] == '"'
  {
    hide Unquote, Escapes;
    var body := UnquoteSplits(t[1..]);
    text := "\"" + body + "\"";
    assert t == [t[0]] + t[1..];
    assert [t[0]] + (body + ("\"" + Unquote(t[1..]).value.after)) == text + Unquote(t[1..]).value.after;
  }

  lemma BareSplits(t: string) returns (after: string)
    requires t == [] || (!IsWhitespace(t[0]) && t[0] != '"')
    ensures var n, text := CommaAt(t), Trim(t[..CommaAt(t)]);
            && Blank(after) && t[..n] == text + after && Trimmed(text) && ',' !in text
            && (text != [] ==> text[0] == t[0] && text[0] != '"')
  {
    hide Trim, CommaAt, IsWhitespace;
    var n := CommaAt(t);
    CommaIsFirst(t);
    var front := t[..n];
    var text := Trim(front);
    var a, b := TrimParts(front);
    assert front != [] ==> front[0] == t[0];
    NoFrontBlank(a, text + b);
    assert front == text + b;
    assert forall k :: 0 <= k < |text| ==> text[k] == front[k];
    after := b;
  }

  /** What is read was written. */
  lemma ValueSplits(s: string) returns (middle: string, text: string, after: string)
    requires Value(TrimStart(s)).Some?
    requires var tail := TrimStart(Value(TrimStart(s)).value.after); tail == [] || tail[0] == ','
    ensures var q := Value(TrimStart(s)).value;
            && Blank(middle) && Blank(after) && Writes(text, q.value)
            && s == middle + (text + (after + TrimStart(q.after)))
            && (text != [] ==> TrimStart(s) != [] && text[0] == TrimStart(s)[0])
  {
    hide IsWhitespace, Unquote, Trim, CommaAt, TrimStart, Escapes;
    var t := TrimStart(s);
    middle := TrimStartParts(s);
    var q := Value(t).value;
    if t != [] && t[0] == '"' {
      text := QuotedSplits(t);
      after := TrimStartParts(q.after);
      assert text + q.after == text + (after + TrimStart(q.after));
    } else {
      text := q.value;
      after := BareSplits(t);
      BareAfter(t);
      assert t == t[..CommaAt(t)] + t[CommaAt(t)..];
      assert t == text + (after + q.after);
      assert Writes(text, q.value);
    }
  }

  lemma BareAfter(t: string)
    requires (t == [] || t[0] != '"') && Value(t).Some?
    ensures TrimStart(Value(t).value.after) == Value(t).value.after
  {
    hide IsWhitespace, Trim, CommaAt, TrimStart;
    var q := Value(t).value;
    var gap := TrimStartParts(q.after);
    CommaIsFirst(t);
    CommaVisible();
    NoFrontBlank(gap, TrimStart(q.after));
  }

  // ----- Operators and names -----

  lemma SignIs(op: MatchOp, sign: string)
    ensures Sign(op, sign) <==> sign == Symbol(op)
  {
  }

  /** The operator a text starts with. */
  lemma OperatorReads(op: MatchOp, s: string)
    requires op == Equal && s != [] ==> s[0] != '~'
    ensures OperatorOf(Symbol(op) + s) == Some(op)
  {
    var t := Symbol(op) + s;
    assert "=~" <= t ==> t[0] == '=' && t[1] == '~';
    assert "!~" <= t ==> t[0] == '!' && t[1] == '~';
    assert "!=" <= t ==> t[0] == '!' && t[1] == '=';
    match op
    case Equal => assert t[..1] == "=" && t[0] == '=' && (|t| > 1 ==> t[1] == s[0]);
    case NotEqual => assert t[..2] == "!=" && t[0] == '!' && t[1] == '=';
    case Regex => assert t[..2] == "=~";
    case NotRegex => assert t[..2] == "!~";
  }

  lemma OperatorSplits(s: string)
    requires OperatorOf(s).Some?
    ensures var op := OperatorOf(s).value;
            && Symbol(op) <= s && s == Symbol(op) + s[|Symbol(op)|..]
            && (op == Equal && |s| > 1 ==> s[1] != '~')
  {
  }

  lemma NamesSame(name: string, host: Host)
    ensures IsName(name, host) <==>
              name != [] && Trimmed(name) && ValidName(name, host) && forall k :: 0 <= k < |name| ==> !OperatorChar(name[k])
  {
  }

  lemma {:induction false} OperatorAtEnd(front: string, s: string)
    requires (forall k :: 0 <= k < |front| ==> !OperatorChar(front[k])) && s != [] && OperatorChar(s[0])
    ensures OperatorAt(front + s) == Some(|front|)
  {
    OperatorAfterName(front, s);
  }

  // ----- One matcher -----

  /** A text that starts as the grammar says is read as that matcher, with that rest. */
  lemma StartReads(p: Parts, m: Matcher, tail: string, rest: string, host: Host)
    requires Spells(p, m, host) && Follows(tail, rest)
    ensures ParseOne(Whole(p, m.name) + tail, host) == Ok(Item(m, rest))
  {
    hide IsName, Writes, Follows, ParseNamed, IsWhitespace, Trim, ValidName, OperatorAt;
    var front := p.lead + (m.name + p.before);
    var back := p.sign + (p.middle + (p.text + (p.after + tail)));
    var s := Whole(p, m.name) + tail;
    assert s == front + back;
    SignIs(m.op, p.sign);
    NamesSame(m.name, host);
    NoCommaInBlank(p.lead);
    NoCommaInBlank(p.before);
    assert forall k :: 0 <= k < |front| ==> !OperatorChar(front[k]);
    assert OperatorChar(back[0]);
    OperatorAtEnd(front, back);
    assert s[..|front|] == front && s[|front|..] == back;
    TrimOf(p.lead, m.name, p.before);
    NameReads(p, m, tail, rest, host);
  }

  lemma NameReads(p: Parts, m: Matcher, tail: string, rest: string, host: Host)
    requires Spells(p, m, host) && Follows(tail, rest)
    ensures ParseNamed(m.name, p.sign + (p.middle + (p.text + (p.after + tail))), host) == Ok(Item(m, rest))
  {
    hide IsName, Writes, IsWhitespace, Trim, TrimStart, ValidName, Value, OperatorOf;
    var s := p.middle + (p.text + (p.after + tail));
    SignIs(m.op, p.sign);
    NamesSame(m.name, host);
    if m.op == Equal { NoTilde(p, tail, rest); }
    OperatorReads(m.op, s);
    assert (p.sign + s)[|p.sign|..] == s;
    ValueReads(p.middle, p.text, p.after, tail, m.value);
    if tail != [] {
      var gap :| Blank(gap) && tail[1..] == gap + rest;
      TrimStartOf(gap, rest);
    }
  }

  lemma NoTilde(p: Parts, tail: string, rest: string)
    requires Blank(p.middle) && Blank(p.after) && Follows(tail, rest)
    requires p.middle == [] && p.text != [] ==> p.text[0] != '~'
    ensures var s := p.middle + (p.text + (p.after + tail)); s != [] ==> s[0] != '~'
  {
    NoCommaInBlank(p.middle);
    NoCommaInBlank(p.after);
    var s := p.middle + (p.text + (p.after + tail));
    if p.middle != [] {
      assert s[0] == p.middle[0];
    } else if p.text != [] {
      assert s[0] == p.text[0];
    } else if p.after != [] {
      assert s[0] == p.after[0];
    } else if tail != [] {
      assert s[0] == tail[0];
    }
  }

  /** What is read as a matcher with a rest starts as the grammar says. */
  lemma StartSplits(s: string, host: Host)
    requires ParseOne(s, host).Ok?
    ensures var item := ParseOne(s, host).value; Starts(s, item.matcher, item.rest, host)
  {
    hide ParseNamed, IsWhitespace, Trim, Writes, IsName, Whole, TrimStart, Follows, Spells;
    var n := OperatorAt(s).value;
    var front, item := s[..n], ParseOne(s, host).value;
    var name := Trim(front);
    var lead, before := TrimParts(front);
    var p, tail := NameSplits(name, s[n..], host, lead, before);
    OneName(s, n, lead, before, host);
    SpelledWhole(p, item.matcher, host);
    assert s == front + s[n..];
    WholeIs(p, name, tail, front, s[n..]);
    assert s == Whole(p, name) + tail;
  }

  lemma WholeIs(p: Parts, name: string, tail: string, front: string, back: string)
    requires front == p.lead + (name + p.before) && back == p.sign + (p.middle + (p.text + (p.after + tail)))
    ensures front + back == Whole(p, name) + tail
  {
  }

  lemma OneName(s: string, n: nat, lead: string, before: string, host: Host)
    requires OperatorAt(s) == Some(n) && s[..n] == lead + (Trim(s[..n]) + before) && Trimmed(Trim(s[..n]))
    requires Trim(s[..n]) != [] && ValidName(Trim(s[..n]), host)
    ensures IsName(Trim(s[..n]), host)
  {
    hide Trim;
    var name := Trim(s[..n]);
    OperatorIsFirst(s);
    assert forall k :: 0 <= k < |name| ==> name[k] == s[..n][|lead| + k] == s[|lead| + k];
    NamesSame(name, host);
  }

  lemma SpelledWhole(p: Parts, m: Matcher, host: Host)
    requires SpellsBut(p, m, host) && IsName(m.name, host) && Blank(p.lead) && Blank(p.before)
    ensures Spells(p, m, host)
  {
    hide IsName, Writes;
  }

  /** All but the name. */
  ghost predicate SpellsBut(p: Parts, m: Matcher, host: Host) {
    && Blank(p.middle) && Blank(p.after) && Sign(m.op, p.sign) && Writes(p.text, m.value)
    && (m.op == Equal && p.middle == [] && p.text != [] ==> p.text[0] != '~')
    && ((m.op == Regex || m.op == NotRegex) ==> host.compiles(m.value))
  }

  lemma NameSplits(name: string, s: string, host: Host, lead: string, before: string) returns (p: Parts, tail: string)
    requires ParseNamed(name, s, host).Ok?
    ensures var item := ParseNamed(name, s, host).value;
            && item.matcher.name == name && name != [] && ValidName(name, host)
            && Follows(tail, item.rest) && SpellsBut(p, item.matcher, host) && p.lead == lead && p.before == before
            && s == p.sign + (p.middle + (p.text + (p.after + tail)))
  {
    hide IsWhitespace, Trim, Writes, TrimStart, Value, OperatorOf, ValidName, Symbol;
    var op := OperatorOf(s).value;
    var sign := Symbol(op);
    OperatorSplits(s);
    SignIs(op, sign);
    var u := s[|sign|..];
    var q := Value(TrimStart(u)).value;
    tail := TrimStart(q.after);
    EndSplits(Matcher(name, op, q.value), tail, host);
    var middle, text, after := ValueSplits(u);
    p := Parts(before, sign, middle, text, after, lead);
    assert op == Equal && middle == [] && text != [] ==> text[0] != '~' by {
      EqualSign(op);
      assert middle == [] && text != [] ==> u[0] == text[0] && s[|sign|] == u[0];
    }
  }

  lemma EqualSign(op: MatchOp)
    ensures op == Equal ==> |Symbol(op)| == 1
  {
  }

  lemma EndSplits(m: Matcher, tail: string, host: Host)
    requires ParseEnd(m, tail, host).Ok?
    ensures var item := ParseEnd(m, tail, host).value;
            && item.matcher == m && Follows(tail, item.rest) && (tail == [] || tail[0] == ',')
            && ((m.op == Regex || m.op == NotRegex) ==> host.compiles(m.value))
  {
    hide IsWhitespace, TrimStart;
    if tail != [] {
      var gap := TrimStartParts(tail[1..]);
    }
  }

  // ----- All matchers -----

  lemma {:induction false} ReadsParse(s: string, ms: seq<Matcher>, host: Host)
    requires Reads(s, ms, host)
    ensures ParseAll(s, host) == Ok(ms)
    decreases |ms|
  {
    hide ParseOne, Spells, Follows, Whole;
    if ms != [] {
      var rest :| Starts(s, ms[0], rest, host) && Reads(rest, ms[1..], host);
      var p, tail :| Spells(p, ms[0], host) && Follows(tail, rest) && s == Whole(p, ms[0].name) + tail;
      StartReads(p, ms[0], tail, rest, host);
      ReadsParse(rest, ms[1..], host);
      StartsVisible(p, ms[0], host);
      assert [ms[0]] + ms[1..] == ms;
    }
  }

  lemma StartsVisible(p: Parts, m: Matcher, host: Host)
    requires Spells(p, m, host)
    ensures Whole(p, m.name) != []
  {
  }

  lemma {:induction false} ParsedReads(s: string, host: Host)
    requires ParseAll(s, host).Ok?
    ensures Reads(s, ParseAll(s, host).value, host)
    decreases |s|
  {
    hide ParseOne, Starts;
    if s != [] {
      var item := ParseOne(s, host).value;
      StartSplits(s, host);
      ParsedReads(item.rest, host);
      var ms := ParseAll(s, host).value;
      assert ms[0] == item.matcher && ms[1..] == ParseAll(item.rest, host).value;
    }
  }

  /** A text, without the blanks and the braces around it, parses to matchers exactly when the grammar reads
      it as them. */
  lemma BodyExactly(s: string, ms: seq<Matcher>, host: Host)
    ensures ParseAll(s, host) == Ok(ms) <==> Reads(s, ms, host)
  {
    hide Reads, ParseAll;
    if Reads(s, ms, host) { ReadsParse(s, ms, host); }
    if ParseAll(s, host) == Ok(ms) { ParsedReads(s, host); }
  }

  /** Blanks around the text, one pair of braces, and blanks within the braces make no difference: the text
      parses to matchers exactly when the grammar reads what is left as them. */
  lemma TextsExactly(before: string, body: string, after: string, inner: string, end: string, ms: seq<Matcher>, host: Host)
    requires Blank(before) && Blank(after) && Blank(inner) && Blank(end) && Trimmed(body) && (body != [] ==> body[0] != '{')
    ensures Parsed(before + (body + after), host) == Ok(ms) <==> Reads(body, ms, host)
    ensures Parsed(before + (("{" + (inner + (body + end)) + "}") + after), host) == Ok(ms) <==> Reads(body, ms, host)
  {
    hide Reads, ParseAll, Trim, IsWhitespace;
    var braced := "{" + (inner + (body + end)) + "}";
    BracesVisible(braced);
    TrimOf(before, body, after);
    TrimOf(before, braced, after);
    TrimOf([], body, []);
    assert [] + (body + []) == body;
    assert braced[1..|braced| - 1] == inner + (body + end);
    TrimOf(inner, body, end);
    BodyExactly(body, ms, host);
  }

  lemma BracesVisible(s: string)
    requires |s| >= 2 && s[0] == '{' && s[|s| - 1] == '}'
    ensures Trimmed(s)
  {
  }

  // ----- Matchers without quotes -----

  /** A matcher whose value can be written without quotes. */
  ghost predicate Bare(m: Matcher, host: Host) {
    && IsName(m.name, host) && Trimmed(m.value) && ',' !in m.value && ((m.op == Regex || m.op == NotRegex) ==> host.compiles(m.value))
    && (m.value != [] ==> m.value[0] != '"' && (m.op == Equal ==> m.value[0] != '~'))
  }

  function Sign1(op: MatchOp): string {
    match op case Equal => "=" case NotEqual => "!=" case Regex => "=~" case NotRegex => "!~"
  }

  /** One matcher without quotes, with this much room between its parts. */
  function BareText(m: Matcher, gap: string): string {
    m.name + (gap + (Sign1(m.op) + if m.value == [] then [] else gap + m.value))
  }

  /** Matchers without quotes, separated by commas. */
  function BareTexts(ms: seq<Matcher>, gap: string): string {
    if ms == [] then []
    else if |ms| == 1 then BareText(ms[0], gap)
    else BareText(ms[0], gap) + (gap + ("," + (gap + BareTexts(ms[1..], gap))))
  }

  lemma BareSpells(m: Matcher, gap: string, after: string, host: Host)
    requires Bare(m, host) && Blank(gap) && Blank(after)
    ensures var p := Parts(gap, Sign1(m.op), if m.value == [] then [] else gap, m.value, after, []);
            Spells(p, m, host) && Whole(p, m.name) == BareText(m, gap) + after
  {
    hide IsName, IsWhitespace;
    assert Writes(m.value, m.value);
  }

  lemma BareVisible(m: Matcher, gap: string, host: Host)
    requires Bare(m, host) && Blank(gap) && host.Valid()
    ensures var t := BareText(m, gap); t != [] && !IsWhitespace(t[0]) && t[0] != '{' && !IsWhitespace(t[|t| - 1])
  {
    var t := BareText(m, gap);
    assert t[0] == m.name[0];
    var end := Sign1(m.op);
    assert t[|t| - 1] == if m.value == [] then end[|end| - 1] else m.value[|m.value| - 1];
  }

  lemma {:induction false} BareRead(ms: seq<Matcher>, gap: string, host: Host)
    requires Blank(gap) && host.Valid() && forall k :: 0 <= k < |ms| ==> Bare(ms[k], host)
    ensures Reads(BareTexts(ms, gap), ms, host)
    ensures ms != [] ==> var t := BareTexts(ms, gap); t != [] && !IsWhitespace(t[0]) && t[0] != '{' && !IsWhitespace(t[|t| - 1])
  {
    hide Bare, BareText, IsWhitespace, Starts;
    if ms != [] {
      var m, rest := ms[0], BareTexts(ms[1..], gap);
      BareRead(ms[1..], gap, host);
      BareVisible(m, gap, host);
      if |ms| == 1 {
        assert ms[1..] == [] && rest == [];
        BareLast(m, gap, host);
      } else {
        BareNext(m, gap, rest, host);
      }
    }
  }

  lemma BareLast(m: Matcher, gap: string, host: Host)
    requires Bare(m, host) && Blank(gap)
    ensures Starts(BareText(m, gap), m, [], host)
  {
    hide Bare, BareText, IsWhitespace, Spells, Whole;
    BareSpells(m, gap, [], host);
    var p := Parts(gap, Sign1(m.op), if m.value == [] then [] else gap, m.value, [], []);
    assert BareText(m, gap) == Whole(p, m.name) + [];
    assert Follows([], []);
  }

  lemma BareNext(m: Matcher, gap: string, rest: string, host: Host)
    requires Bare(m, host) && Blank(gap) && rest != [] && !IsWhitespace(rest[0])
    ensures Starts(BareText(m, gap) + (gap + ("," + (gap + rest))), m, rest, host)
  {
    hide Bare, BareText, IsWhitespace, Spells, Whole;
    BareSpells(m, gap, gap, host);
    var p := Parts(gap, Sign1(m.op), if m.value == [] then [] else gap, m.value, gap, []);
    var tail := "," + (gap + rest);
    assert tail[1..] == gap + rest;
    assert Follows(tail, rest);
    assert BareText(m, gap) + (gap + tail) == Whole(p, m.name) + tail;
  }

  /** Unquoted text: matchers with valid names and values that need no quotes, written plainly with any
      blanks around their parts, parse to exactly those matchers, with and without braces. */
  lemma UnquotedRoundTrip(ms: seq<Matcher>, gap: string, host: Host)
    requires Blank(gap) && host.Valid() && forall k :: 0 <= k < |ms| ==> Bare(ms[k], host)
    ensures Parsed(gap + (BareTexts(ms, gap) + gap), host) == Ok(ms)
    ensures Parsed(gap + (("{" + (gap + (BareTexts(ms, gap) + gap)) + "}") + gap), host) == Ok(ms)
  {
    hide Reads, Bare, Parsed;
    BareRead(ms, gap, host);
    TextsExactly(gap, BareTexts(ms, gap), gap, gap, gap, ms, host);
  }
}
