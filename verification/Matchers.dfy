/** Label matchers: parsing, printing and the shell arguments made of them (matchers.rs). */
module Matchers {
  import opened Wrappers
  import opened Text
  import Policy
  import Shell

  datatype MatchOp = Equal | NotEqual | Regex | NotRegex

  datatype Matcher = Matcher(name: string, op: MatchOp, value: string)

  datatype Error =
    | MissingOperator
    | MissingName
    | InvalidName(name: string)
    | UnknownOperator(name: string)
    | UnterminatedQuote
    | InvalidRegex(pattern: string)
    | MissingComma

  /** What the parser asks of code outside this model: the letters and digits of Unicode
      (`char::is_alphanumeric`) and the regex compiler. An opening brace is no letter. */
  datatype Host = Host(alphanumeric: char -> bool, compiles: string -> bool) {
    ghost predicate Valid() { !alphanumeric('{') }
  }

  function Symbol(op: MatchOp): string {
    match op
    case Equal => "="
    case NotEqual => "!="
    case Regex => "=~"
    case NotRegex => "!~"
  }

  function Escape(value: string): string {
    Replace(Replace(value, '\\', "\\\\"), '"', "\\\"")
  }

  /** `Display for Matcher` */
  function ToString(m: Matcher): string {
    m.name + Symbol(m.op) + "\"" + Escape(m.value) + "\""
  }

  function Strings(ms: seq<Matcher>): seq<string> {
    if ms == [] then [] else [ToString(ms[0])] + Strings(ms[1..])
  }

  function Format(ms: seq<Matcher>): string {
    Join(Strings(ms), ", ")
  }

  function QuotedStrings(ms: seq<Matcher>): seq<string> {
    if ms == [] then [] else [Policy.SingleQuoted(ToString(ms[0]))] + QuotedStrings(ms[1..])
  }

  function AmtoolArgs(ms: seq<Matcher>): string {
    Join(QuotedStrings(ms), " ")
  }

  predicate NameChar(c: char, host: Host) {
    host.alphanumeric(c) || c == '_' || c == '.' || c == '/' || c == '-'
  }

  predicate ValidName(name: string, host: Host) {
    forall i :: 0 <= i < |name| ==> NameChar(name[i], host)
  }

  predicate IsRegex(op: MatchOp) { op.Regex? || op.NotRegex? }

  /** `Matcher::check`; the name is already known not to be blank. */
  predicate Checks(m: Matcher, host: Host) {
    IsRegex(m.op) ==> host.compiles(m.value)
  }

  predicate OperatorChar(c: char) { c == '=' || c == '!' }

  /** The position of the first `=` or `!`. */
  function OperatorAt(s: string): (r: Option<nat>)
    ensures r.Some? ==> r.value < |s|
  {
    if s == [] then None
    else if OperatorChar(s[0]) then Some(0)
    else match OperatorAt(s[1..]) { case Some(n) => Some(n + 1) case None => None }
  }

  lemma {:induction false} OperatorIsFirst(s: string)
    requires OperatorAt(s).Some?
    ensures forall i :: 0 <= i < OperatorAt(s).value ==> !OperatorChar(s[i])
  {
    if !OperatorChar(s[0]) {
      OperatorIsFirst(s[1..]);
      assert forall i :: 0 < i < OperatorAt(s).value ==> s[i] == s[1..][i - 1];
    }
  }

  function CommaAt(s: string): (n: nat)
    ensures n <= |s|
  {
    if s == [] || s[0] == ',' then 0 else 1 + CommaAt(s[1..])
  }

  /** Which operator a text starts with, in the order the code tries them. */
  function OperatorOf(s: string): (r: Option<MatchOp>)
    ensures r.Some? ==> Symbol(r.value) <= s
  {
    if "=~" <= s then Some(Regex)
    else if "!~" <= s then Some(NotRegex)
    else if "!=" <= s then Some(NotEqual)
    else if "=" <= s then Some(Equal)
    else None
  }

  datatype Quote = Quote(value: string, after: string)

  /** Reads a quoted value after its opening quote: the unescaped value and what follows. */
  function Unquote(s: string): (r: Option<Quote>)
    ensures r.Some? ==> |r.value.after| < |s|
    decreases |s|
  {
    if s == [] then None
    else if s[0] == '"' then Some(Quote([], s[1..]))
    else if s[0] == '\\' then if |s| == 1 then None else After([s[1]], Unquote(s[2..]))
    else After([s[0]], Unquote(s[1..]))
  }

  datatype Item = Item(matcher: Matcher, rest: string)

  /** The value after an operator, and what follows it. */
  function Value(s: string): (r: Option<Quote>)
    ensures r.Some? ==> |r.value.after| <= |s|
  {
    if s != [] && s[0] == '"' then Unquote(s[1..])
    else Some(Quote(Trim(s[..CommaAt(s)]), s[CommaAt(s)..]))
  }

  /** The first matcher of a text and the text of the following ones. */
  function ParseOne(s: string, host: Host): (r: Result<Item, Error>)
    ensures r.Ok? ==> |r.value.rest| < |s|
  {
    match OperatorAt(s)
    case None => Err(MissingOperator)
    case Some(n) => ParseNamed(Trim(s[..n]), s[n..], host)
  }

  function ParseNamed(name: string, s: string, host: Host): (r: Result<Item, Error>)
    ensures r.Ok? ==> |r.value.rest| < |s|
  {
    if name == [] then Err(MissingName)
    else if !ValidName(name, host) then Err(InvalidName(name))
    else match OperatorOf(s)
      case None => Err(UnknownOperator(name))
      case Some(op) => ParseValue(name, op, TrimStart(s[|Symbol(op)|..]), host)
  }

  function ParseValue(name: string, op: MatchOp, s: string, host: Host): (r: Result<Item, Error>)
    ensures r.Ok? ==> |r.value.rest| <= |s|
  {
    match Value(s)
    case None => Err(UnterminatedQuote)
    case Some(q) => ParseEnd(Matcher(name, op, q.value), TrimStart(q.after), host)
  }

  function ParseEnd(m: Matcher, s: string, host: Host): (r: Result<Item, Error>)
    ensures r.Ok? ==> |r.value.rest| <= |s|
  {
    if !Checks(m, host) then Err(InvalidRegex(m.value))
    else if s == [] then Ok(Item(m, []))
    else if s[0] == ',' then Ok(Item(m, TrimStart(s[1..])))
    else Err(MissingComma)
  }

  function Prepend(ms: seq<Matcher>, r: Result<seq<Matcher>, Error>): Result<seq<Matcher>, Error> {
    match r
    case Ok(more) => Ok(ms + more)
    case Err(e) => Err(e)
  }

  function ParseAll(s: string, host: Host): Result<seq<Matcher>, Error>
    decreases |s|
  {
    if s == [] then Ok([])
    else match ParseOne(s, host) {
      case Err(e) => Err(e)
      case Ok(item) => Prepend([item.matcher], ParseAll(item.rest, host))
    }
  }

  /** The text without one pair of surrounding braces. */
  function StripBraces(s: string): string {
    if |s| >= 2 && s[0] == '{' && s[|s| - 1] == '}' then s[1..|s| - 1] else s
  }

  function Parsed(text: string, host: Host): Result<seq<Matcher>, Error> {
    ParseAll(Trim(StripBraces(Trim(text))), host)
  }

  function After(value: string, rest: Option<Quote>): Option<Quote> {
    match rest
    case Some(q) => Some(Quote(value + q.value, q.after))
    case None => None
  }

  /** `parse` reads a quoted value character by character. */
  method ReadQuoted(quoted: string) returns (r: Option<Quote>)
    ensures r == Unquote(quoted)
  {
    var value := "";
    var ix := 0;
    AfterNothing(Unquote(quoted));
    assert quoted[0..] == quoted;
    while ix < |quoted| && quoted[ix] != '"'
      invariant 0 <= ix <= |quoted|
      invariant Unquote(quoted) == After(value, Unquote(quoted[ix..]))
      decreases |quoted| - ix
    {
      var here := quoted[ix..];
      if quoted[ix] == '\\' {
        if ix + 1 < |quoted| {
          assert here[2..] == quoted[ix + 2..];
          AfterTwice(value, quoted[ix + 1], Unquote(here[2..]));
          value := value + [quoted[ix + 1]];
          ix := ix + 2;
        } else {
          ix := ix + 1;
        }
      } else {
        assert here[1..] == quoted[ix + 1..];
        AfterTwice(value, quoted[ix], Unquote(here[1..]));
        value := value + [quoted[ix]];
        ix := ix + 1;
      }
    }
    if ix == |quoted| {
      r := None;
    } else {
      assert quoted[ix..][1..] == quoted[ix + 1..];
      assert value + [] == value;
      r := Some(Quote(value, quoted[ix + 1..]));
    }
  }

  lemma AfterNothing(rest: Option<Quote>)
    ensures After([], rest) == rest
  {
    match rest
    case Some(q) => assert [] + q.value == q.value;
    case None =>
  }

  lemma AfterTwice(value: string, c: char, rest: Option<Quote>)
    ensures After(value + [c], rest) == After(value, After([c], rest))
  {
    match rest
    case Some(q) => assert value + [c] + q.value == value + ([c] + q.value);
    case None =>
  }

  /** One round of the parse loop. */
  method ParseItem(text: string, host: Host) returns (r: Result<Item, Error>)
    ensures r == ParseOne(text, host)
  {
    var rest := text;
    var end := OperatorAt(rest);
    if end.None? { return Err(MissingOperator); }
    var name := Trim(rest[..end.value]);
    rest := rest[end.value..];
    if name == [] { return Err(MissingName); }
    if !ValidName(name, host) { return Err(InvalidName(name)); }
    var op := OperatorOf(rest);
    if op.None? { return Err(UnknownOperator(name)); }
    rest := TrimStart(rest[|Symbol(op.value)|..]);
    assert ParseOne(text, host) == ParseValue(name, op.value, rest, host);
    var value, after := "", "";
    if rest != [] && rest[0] == '"' {
      var quote := ReadQuoted(rest[1..]);
      if quote.None? { return Err(UnterminatedQuote); }
      value, after := quote.value.value, quote.value.after;
    } else {
      var comma := CommaAt(rest);
      value, after := Trim(rest[..comma]), rest[comma..];
    }
    assert Value(rest) == Some(Quote(value, after));
    var matcher := Matcher(name, op.value, value);
    rest := TrimStart(after);
    if !Checks(matcher, host) { return Err(InvalidRegex(value)); }
    if rest != [] && rest[0] == ',' {
      rest := TrimStart(rest[1..]);
    } else if rest != [] {
      return Err(MissingComma);
    }
    r := Ok(Item(matcher, rest));
  }

  method Parse(text: string, host: Host) returns (r: Result<seq<Matcher>, Error>)
    ensures r == Parsed(text, host)
  {
    var matchers: seq<Matcher> := [];
    var rest := Trim(StripBraces(Trim(text)));
    PrependNothing(ParseAll(rest, host));
    while rest != []
      invariant Prepend(matchers, ParseAll(rest, host)) == Parsed(text, host)
      decreases |rest|
    {
      var item := ParseItem(rest, host);
      if item.Err? { return Err(item.error); }
      PrependTwice(matchers, item.value.matcher, ParseAll(item.value.rest, host));
      matchers := matchers + [item.value.matcher];
      rest := item.value.rest;
    }
    assert matchers + [] == matchers;
    r := Ok(matchers);
  }

  lemma PrependNothing(r: Result<seq<Matcher>, Error>)
    ensures Prepend([], r) == r
  {
    match r
    case Ok(more) => assert [] + more == more;
    case Err(_) =>
  }

  lemma PrependTwice(ms: seq<Matcher>, m: Matcher, r: Result<seq<Matcher>, Error>)
    ensures Prepend(ms + [m], r) == Prepend(ms, Prepend([m], r))
  {
    match r
    case Ok(more) => assert ms + [m] + more == ms + ([m] + more);
    case Err(_) =>
  }

  // ----- What the parser produces -----

  /** Matchers the parser can produce. */
  ghost predicate Normal(m: Matcher, host: Host) {
    && m.name != [] && ValidName(m.name, host) && Checks(m, host)
    && Trimmed(m.name)
    && forall i :: 0 <= i < |m.name| ==> !OperatorChar(m.name[i])
  }

  lemma ParseOneIsNormal(s: string, host: Host)
    requires ParseOne(s, host).Ok?
    ensures Normal(ParseOne(s, host).value.matcher, host)
  {
    var n := OperatorAt(s).value;
    ParseNamedKeeps(Trim(s[..n]), s[n..], host);
    OperatorIsFirst(s);
    TrimFacts(s[..n]);
  }

  lemma ParseNamedKeeps(name: string, s: string, host: Host)
    requires ParseNamed(name, s, host).Ok?
    ensures var m := ParseNamed(name, s, host).value.matcher;
            m.name == name && name != [] && ValidName(name, host) && Checks(m, host)
  {
  }

  lemma {:induction false} ParseAllIsNormal(s: string, host: Host)
    requires ParseAll(s, host).Ok?
    ensures forall i :: 0 <= i < |ParseAll(s, host).value| ==> Normal(ParseAll(s, host).value[i], host)
    decreases |s|
  {
    if s != [] {
      ParseOneIsNormal(s, host);
      ParseAllIsNormal(ParseOne(s, host).value.rest, host);
    }
  }

  // ----- Printing and reading back -----

  lemma EscapeStep(c: char, value: string)
    ensures Escape([c] + value) ==
            (if c == '\\' then "\\\\" else if c == '"' then "\\\"" else [c]) + Escape(value)
  {
    var inner := Replace([c] + value, '\\', "\\\\");
    assert ([c] + value)[1..] == value;
    var head := if c == '\\' then "\\\\" else [c];
    assert inner == head + Replace(value, '\\', "\\\\");
    ReplaceAppend(head, Replace(value, '\\', "\\\\"), '"', "\\\"");
    assert Replace([c], '"', "\\\"") == if c == '"' then "\\\"" else [c] by {
      assert [c][1..] == [];
    }
    if c == '\\' {
      assert "\\\\"[1..] == "\\" && "\\"[1..] == [];
      assert Replace("\\", '"', "\\\"") == "\\";
      assert Replace("\\\\", '"', "\\\"") == "\\\\";
    }
  }

  /** Any value, whatever quotes and backslashes it holds, reads back from its quoted form. */
  lemma {:induction false} UnquoteEscape(value: string, after: string)
    ensures Unquote(Escape(value) + "\"" + after) == Some(Quote(value, after))
  {
    var text := Escape(value) + "\"" + after;
    if value == [] {
      assert text == "\"" + after && text[1..] == after;
    } else {
      var c, rest := value[0], value[1..];
      assert value == [c] + rest;
      EscapeStep(c, rest);
      UnquoteEscape(rest, after);
      var tail := Escape(rest) + "\"" + after;
      if c == '\\' || c == '"' {
        assert text == ['\\', c] + tail;
        assert text[2..] == tail && text[1] == c;
      } else {
        assert text == [c] + tail && text[1..] == tail;
      }
    }
  }

  lemma {:induction false} OperatorAfterName(name: string, s: string)
    requires forall i :: 0 <= i < |name| ==> !OperatorChar(name[i])
    requires s != [] && OperatorChar(s[0])
    ensures OperatorAt(name + s) == Some(|name|)
  {
    if name == [] {
      assert name + s == s;
    } else {
      assert (name + s)[0] == name[0];
      assert (name + s)[1..] == name[1..] + s;
      OperatorAfterName(name[1..], s);
    }
  }

  lemma SymbolThenQuote(op: MatchOp, s: string)
    requires s != [] && s[0] == '"'
    ensures OperatorOf(Symbol(op) + s) == Some(op)
  {
    var t := Symbol(op) + s;
    match op
    case Equal => assert t[1] == '"';
    case NotEqual => assert t[..2] == "!=" && t[1] == '=';
    case Regex => assert t[..2] == "=~";
    case NotRegex => assert t[..2] == "!~";
  }

  /** One printed matcher reads back, with whatever separator follows it. */
  lemma ParsePrinted(m: Matcher, after: string, host: Host)
    requires Normal(m, host)
    requires after == [] || after[0] == ','
    ensures ParseOne(ToString(m) + after, host) ==
            Ok(Item(m, if after == [] then [] else TrimStart(after[1..])))
  {
    hide ToString, Escape, TrimStart, ParseOne, ParseNamed, ParseValue;
    var quoted := "\"" + Escape(m.value) + "\"" + after;
    PrintedText(m, after);
    PrintedName(m, quoted, ToString(m) + after, host);
    PrintedOperator(m, quoted, host);
    ParsePrintedValue(m, after, host);
  }

  lemma PrintedOperator(m: Matcher, quoted: string, host: Host)
    requires Normal(m, host)
    requires quoted != [] && quoted[0] == '"'
    ensures ParseNamed(m.name, Symbol(m.op) + quoted, host) == ParseValue(m.name, m.op, TrimStart(quoted), host)
  {
    hide Value, TrimStart;
    SymbolThenQuote(m.op, quoted);
    assert (Symbol(m.op) + quoted)[|Symbol(m.op)|..] == quoted;
  }

  lemma PrintedText(m: Matcher, after: string)
    ensures ToString(m) + after == m.name + (Symbol(m.op) + ("\"" + Escape(m.value) + "\"" + after))
  {
    hide Escape, Symbol;
  }

  lemma PrintedName(m: Matcher, quoted: string, s: string, host: Host)
    requires Normal(m, host)
    requires s == m.name + (Symbol(m.op) + quoted)
    ensures ParseOne(s, host) == ParseNamed(m.name, Symbol(m.op) + quoted, host)
  {
    var operator := Symbol(m.op) + quoted;
    OperatorAfterName(m.name, operator);
    assert s[..|m.name|] == m.name && s[|m.name|..] == operator;
    TrimmedIsFixed(m.name);
  }

  lemma ParsePrintedValue(m: Matcher, after: string, host: Host)
    requires Checks(m, host)
    requires after == [] || after[0] == ','
    ensures var quoted := "\"" + Escape(m.value) + "\"" + after;
            ParseValue(m.name, m.op, TrimStart(quoted), host) ==
            Ok(Item(m, if after == [] then [] else TrimStart(after[1..])))
  {
    var quoted := "\"" + Escape(m.value) + "\"" + after;
    ValuePrinted(m.value, after);
    Visible(quoted);
    Visible(after);
  }

  lemma ValuePrinted(value: string, after: string)
    ensures var quoted := "\"" + Escape(value) + "\"" + after;
            quoted[0] == '"' && Value(quoted) == Some(Quote(value, after))
  {
    var quoted := "\"" + Escape(value) + "\"" + after;
    assert quoted[1..] == Escape(value) + "\"" + after;
    UnquoteEscape(value, after);
  }

  lemma FormatOne(ms: seq<Matcher>)
    requires |ms| == 1
    ensures Format(ms) == ToString(ms[0]) + []
  {
    assert Strings(ms) == [ToString(ms[0])];
  }

  lemma FormatStep(ms: seq<Matcher>)
    requires |ms| >= 2
    ensures Format(ms) == ToString(ms[0]) + (", " + Format(ms[1..]))
  {
    assert Strings(ms)[1..] == Strings(ms[1..]);
    assert |Strings(ms[1..])| >= 1 by { assert ms[1..][1..] == ms[2..]; }
  }

  lemma FormatVisible(ms: seq<Matcher>, host: Host)
    requires host.Valid()
    requires forall i :: 0 <= i < |ms| ==> Normal(ms[i], host)
    ensures ms == [] ==> Format(ms) == []
    ensures ms != [] ==> Format(ms) != [] && !IsWhitespace(Format(ms)[0]) && Format(ms)[0] != '{'
    ensures ms != [] ==> Format(ms)[|Format(ms)| - 1] == '"'
  {
    if ms != [] {
      assert Normal(ms[0], host) && NameChar(ms[0].name[0], host);
      if |ms| == 1 {
        assert Strings(ms) == [ToString(ms[0])];
      } else {
        FormatStep(ms);
        FormatVisible(ms[1..], host);
      }
    }
  }

  lemma {:induction false} ParseAllFormat(ms: seq<Matcher>, host: Host)
    requires host.Valid()
    requires forall i :: 0 <= i < |ms| ==> Normal(ms[i], host)
    ensures ParseAll(Format(ms), host) == Ok(ms)
  {
    hide ParseOne, TrimStart, ToString, Strings;
    if ms == [] {
      FormatVisible(ms, host);
    } else if |ms| == 1 {
      FormatOne(ms);
      ParsePrinted(ms[0], [], host);
      assert [ms[0]] + [] == ms;
    } else {
      FormatStep(ms);
      var after := ", " + Format(ms[1..]);
      ParsePrinted(ms[0], after, host);
      FormatVisible(ms[1..], host);
      SeparatorSkipped(Format(ms[1..]));
      ParseAllFormat(ms[1..], host);
      assert [ms[0]] + ms[1..] == ms;
    }
  }

  lemma SeparatorSkipped(s: string)
    requires s != [] && !IsWhitespace(s[0])
    ensures TrimStart((", " + s)[1..]) == s
  {
    assert (", " + s)[1..] == " " + s;
    assert (" " + s)[1..] == s;
  }

  /** Normal form: what the parser accepts prints to text that parses to the same matchers,
      with and without braces. */
  lemma FormatRoundTrip(text: string, host: Host)
    requires host.Valid()
    requires Parsed(text, host).Ok?
    ensures var ms := Parsed(text, host).value;
            && Parsed(Format(ms), host) == Ok(ms)
            && Parsed("{" + Format(ms) + "}", host) == Ok(ms)
  {
    var ms := Parsed(text, host).value;
    ParseAllIsNormal(Trim(StripBraces(Trim(text))), host);
    NormalRoundTrip(ms, host);
  }

  lemma NormalRoundTrip(ms: seq<Matcher>, host: Host)
    requires host.Valid()
    requires forall i :: 0 <= i < |ms| ==> Normal(ms[i], host)
    ensures Parsed(Format(ms), host) == Ok(ms)
    ensures Parsed("{" + Format(ms) + "}", host) == Ok(ms)
  {
    FormatVisible(ms, host);
    ParseAllFormat(ms, host);
    BracesDropped(Format(ms), host);
  }

  lemma BracesDropped(s: string, host: Host)
    requires s != [] ==> !IsWhitespace(s[0]) && !IsWhitespace(s[|s| - 1]) && s[0] != '{'
    ensures Parsed(s, host) == ParseAll(s, host)
    ensures Parsed("{" + s + "}", host) == ParseAll(s, host)
  {
    var braced := "{" + s + "}";
    TrimmedIsFixed(s);
    TrimmedIsFixed(braced);
    assert braced[1..|braced| - 1] == s;
  }

  /** Every word the shell passes on is one matcher's text, in order. */
  lemma {:induction false} AmtoolWords(ms: seq<Matcher>)
    ensures Shell.Lex(AmtoolArgs(ms), Shell.Between) == Some(Strings(ms))
  {
    if ms == [] {
    } else if |ms| == 1 {
      assert QuotedStrings(ms) == [Policy.SingleQuoted(ToString(ms[0]))];
      assert Strings(ms) == [ToString(ms[0])];
      Shell.LexSingleQuoted(ToString(ms[0]));
    } else {
      var first := Policy.SingleQuoted(ToString(ms[0]));
      assert QuotedStrings(ms)[1..] == QuotedStrings(ms[1..]);
      assert |QuotedStrings(ms[1..])| >= 1;
      assert AmtoolArgs(ms) == first + " " + AmtoolArgs(ms[1..]);
      Shell.LexSingleQuoted(ToString(ms[0]));
      Shell.LexThenMore(first, Shell.Between, AmtoolArgs(ms[1..]));
      AmtoolWords(ms[1..]);
    }
  }

  lemma {:induction false} StringsAt(ms: seq<Matcher>, i: nat)
    requires i < |ms|
    ensures |Strings(ms)| == |ms| && Strings(ms)[i] == ToString(ms[i])
  {
    if i > 0 {
      StringsAt(ms[1..], i - 1);
    } else if |ms| > 1 {
      StringsAt(ms[1..], 0);
    } else {
      assert Strings(ms) == [ToString(ms[0])];
    }
  }

  /** The arguments for amtool carry exactly the matchers: a shell splits them into one word per
      matcher, and each word parses back to that matcher alone. */
  lemma AmtoolRoundTrip(text: string, host: Host)
    requires host.Valid()
    requires Parsed(text, host).Ok?
    ensures var ms := Parsed(text, host).value;
            && Shell.Lex(AmtoolArgs(ms), Shell.Between) == Some(Strings(ms))
            && |Strings(ms)| == |ms|
            && forall i :: 0 <= i < |ms| ==> Parsed(Strings(ms)[i], host) == Ok([ms[i]])
  {
    var ms := Parsed(text, host).value;
    ParseAllIsNormal(Trim(StripBraces(Trim(text))), host);
    AmtoolWords(ms);
    if ms != [] { StringsAt(ms, 0); }
    forall i | 0 <= i < |ms| ensures Parsed(Strings(ms)[i], host) == Ok([ms[i]]) {
      StringsAt(ms, i);
      NormalRoundTrip([ms[i]], host);
      assert Strings([ms[i]]) == [ToString(ms[i])];
    }
  }
}
