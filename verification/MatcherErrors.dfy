/** What is wrong with a text that is no matchers. */
module MatcherErrors {
  import opened Wrappers
  import opened Text
  import opened Matchers
  import opened MatcherTexts

  /** The name is what stands before the first `=` or `!`, which begins the tail. */
  ghost predicate Begins(s: string, name: string, tail: string) {
    && Trimmed(name) && tail != [] && (tail[0] == '=' || tail[0] == '!')
    && (exists lead, before :: Blank(lead) && Blank(before) && s == (lead + (name + before)) + tail)
    && forall k :: 0 <= k < |s| - |tail| ==> s[k] != '=' && s[k] != '!'
  }

  /** After a name and an operator, the value begins here. */
  ghost predicate Sees(s: string, name: string, op: MatchOp, value: string, host: Host) {
    exists tail, sign, middle ::
      && Begins(s, name, tail) && IsName(name, host) && Sign(op, sign) && Blank(middle) && tail == sign + (middle + value)
      && (value == [] || !IsWhitespace(value[0])) && (op == Equal && middle == [] && value != [] ==> value[0] != '~')
  }

  /** The value ends at its quote; a bare one, but for blanks, at a comma or the end. */
  ghost predicate Ends(text: string, after: string) {
    || (text != [] && text[0] == '"')
    || after == []
    || exists gap, rest :: Blank(gap) && after == gap + rest && (rest == [] || rest[0] == ',')
  }

  ghost predicate Wrong(s: string, e: Error, host: Host) {
    match e
    case MissingOperator => s != [] && forall k :: 0 <= k < |s| ==> s[k] != '=' && s[k] != '!'
    case MissingName => exists tail :: Begins(s, [], tail)
    case InvalidName(name) => name != [] && !IsName(name, host) && exists tail :: Begins(s, name, tail)
    case UnknownOperator(name) =>
      IsName(name, host) && exists tail :: Begins(s, name, tail) && tail[0] == '!' && (|tail| == 1 || (tail[1] != '=' && tail[1] != '~'))
    case UnterminatedQuote =>
      exists name, op, t :: Sees(s, name, op, "\"" + t, host)
        && forall body, value, after :: t == body + ("\"" + after) ==> !Escapes(body, value)
    case InvalidRegex(pattern) =>
      !host.compiles(pattern) && exists name, op, text, after ::
        Sees(s, name, op, text + after, host) && (op == Regex || op == NotRegex) && Writes(text, pattern) && Ends(text, after)
    case MissingComma =>
      exists name, op, text, value, gap, after ::
        && Sees(s, name, op, text + (gap + after), host) && Writes(text, value) && text != [] && text[0] == '"'
        && Blank(gap) && after != [] && after[0] != ',' && !IsWhitespace(after[0])
  }

  /** The text is these matchers, and then the rest. */
  ghost predicate ReadsThen(s: string, ms: seq<Matcher>, rest: string, host: Host)
    decreases |ms|
  {
    if ms == [] then s == rest else exists next :: Starts(s, ms[0], next, host) && ReadsThen(next, ms[1..], rest, host)
  }

  // ----- One matcher -----

  lemma {:induction false} NoOperator(s: string)
    ensures OperatorAt(s).None? ==> forall k :: 0 <= k < |s| ==> s[k] != '=' && s[k] != '!'
  {
    if s != [] {
      NoOperator(s[1..]);
      assert forall k :: 0 < k < |s| ==> s[k] == s[1..][k - 1];
    }
  }

  lemma {:induction false} OperatorThere(s: string)
    requires OperatorAt(s).Some?
    ensures OperatorChar(s[OperatorAt(s).value])
  {
    if !OperatorChar(s[0]) {
      OperatorThere(s[1..]);
    }
  }

  lemma NameBegins(s: string, n: nat)
    requires OperatorAt(s) == Some(n)
    ensures Begins(s, Trim(s[..n]), s[n..])
  {
    hide Trim, IsWhitespace;
    OperatorIsFirst(s);
    OperatorThere(s);
    var lead, before := TrimParts(s[..n]);
    assert s == s[..n] + s[n..];
  }

  lemma NamedIs(s: string, n: nat, host: Host)
    requires OperatorAt(s) == Some(n)
    ensures var name := Trim(s[..n]); name != [] ==> (ValidName(name, host) <==> IsName(name, host))
  {
    hide Trim;
    var lead, before := TrimParts(s[..n]);
    if Trim(s[..n]) != [] && ValidName(Trim(s[..n]), host) {
      OneName(s, n, lead, before, host);
    }
    NamesSame(Trim(s[..n]), host);
  }

  lemma OddOperator(s: string)
    requires s != [] && OperatorChar(s[0]) && OperatorOf(s).None?
    ensures s[0] == '!' && (|s| == 1 || (s[1] != '=' && s[1] != '~'))
  {
    assert s[0] == '=' ==> "=" <= s;
    assert |s| > 1 && s[0] == '!' && s[1] == '=' ==> "!=" <= s;
    assert |s| > 1 && s[0] == '!' && s[1] == '~' ==> "!~" <= s;
  }

  lemma ValueSeen(s: string, n: nat, op: MatchOp, host: Host)
    requires OperatorAt(s) == Some(n) && Trim(s[..n]) != [] && ValidName(Trim(s[..n]), host) && OperatorOf(s[n..]) == Some(op)
    ensures Sees(s, Trim(s[..n]), op, TrimStart(s[n..][|Symbol(op)|..]), host)
  {
    hide Trim, TrimStart, IsWhitespace, Begins, IsName, ValidName, Symbol, OperatorOf;
    var tail, sign := s[n..], Symbol(op);
    NameBegins(s, n);
    NamedIs(s, n, host);
    OperatorSplits(tail);
    SignIs(op, sign);
    EqualSign(op);
    var u := tail[|sign|..];
    var middle := TrimStartParts(u);
    assert tail == sign + (middle + TrimStart(u));
    assert middle == [] && TrimStart(u) != [] ==> u == TrimStart(u) && tail[|sign|] == u[0];
  }

  lemma QuoteOpen(t: string)
    requires Unquote(t).None?
    ensures forall body, value, after :: t == body + ("\"" + after) ==> !Escapes(body, value)
  {
    hide Unquote, Escapes;
    forall body, value, after | t == body + ("\"" + after) ensures !Escapes(body, value) {
      if Escapes(body, value) {
        UnquoteReads(body, value, after);
      }
    }
  }

  /** How a value that was read stands in the text. */
  lemma ValueIs(t: string) returns (text: string)
    requires Value(t).Some? && (t == [] || !IsWhitespace(t[0]))
    ensures var q := Value(t).value;
            exists after :: t == text + after && Writes(text, q.value) && Ends(text, after)
              && TrimStart(after) == TrimStart(q.after) && (text != [] && text[0] == '"' <==> t != [] && t[0] == '"')
  {
    hide IsWhitespace, Unquote, Trim, CommaAt, TrimStart, Escapes;
    var q := Value(t).value;
    if t != [] && t[0] == '"' {
      text := QuotedSplits(t);
    } else {
      text := q.value;
      var gap := BareSplits(t);
      CommaIsFirst(t);
      assert t == t[..CommaAt(t)] + t[CommaAt(t)..];
      assert t == text + (gap + q.after);
      assert Ends(text, gap + q.after);
      BareAfter(t);
      CommaVisible();
      TrimStartOf(gap, q.after);
    }
  }

  lemma EndIsWrong(s: string, name: string, op: MatchOp, t: string, host: Host)
    requires Sees(s, name, op, t, host) && (t == [] || !IsWhitespace(t[0]))
    requires ParseValue(name, op, t, host).Err?
    ensures Wrong(s, ParseValue(name, op, t, host).error, host)
  {
    hide Sees, IsWhitespace, TrimStart, Writes, Ends, Value, Escapes;
    if Value(t).None? {
      assert t != [] && t[0] == '"' && Unquote(t[1..]).None? by { NoValue(t); }
      assert t == "\"" + t[1..];
      QuoteOpen(t[1..]);
    } else {
      var q := Value(t).value;
      var text := ValueIs(t);
      var after :| t == text + after && Writes(text, q.value) && Ends(text, after)
        && TrimStart(after) == TrimStart(q.after) && (text != [] && text[0] == '"' <==> t != [] && t[0] == '"');
      var gap := TrimStartParts(after);
      if Checks(Matcher(name, op, q.value), host) {
        QuotedEnd(t);
        assert t == text + (gap + TrimStart(after));
      }
    }
  }

  lemma NoValue(t: string)
    requires Value(t).None?
    ensures t != [] && t[0] == '"' && Unquote(t[1..]).None?
  {
  }

  /** Only a quoted value can be followed by something else than a comma. */
  lemma QuotedEnd(t: string)
    requires Value(t).Some?
    ensures var rest := TrimStart(Value(t).value.after); rest != [] && rest[0] != ',' ==> t != [] && t[0] == '"'
  {
    hide TrimStart, CommaAt;
    if !(t != [] && t[0] == '"') {
      BareAfter(t);
      CommaIsFirst(t);
    }
  }

  lemma OneIsWrong(s: string, host: Host)
    requires s != [] && ParseOne(s, host).Err?
    ensures Wrong(s, ParseOne(s, host).error, host)
  {
    hide Trim, TrimStart, ParseValue, OperatorOf, ValidName, IsName, Begins, Sees, IsWhitespace;
    match OperatorAt(s)
    case None => NoOperator(s);
    case Some(n) =>
      var name, tail := Trim(s[..n]), s[n..];
      NameBegins(s, n);
      NamedIs(s, n, host);
      OperatorThere(s);
      if name != [] && ValidName(name, host) {
        match OperatorOf(tail)
        case None => OddOperator(tail);
        case Some(op) =>
          var t := TrimStart(tail[|Symbol(op)|..]);
          ValueSeen(s, n, op, host);
          var _ := TrimStartParts(tail[|Symbol(op)|..]);
          EndIsWrong(s, name, op, t, host);
      }
  }

  // ----- The first error -----

  /** A text that does not parse is matchers up to somewhere, and its error says what is wrong there. */
  lemma {:induction false} ErrorsSayWhatIsWrong(s: string, host: Host)
    requires ParseAll(s, host).Err?
    ensures exists ms, rest :: ReadsThen(s, ms, rest, host) && Wrong(rest, ParseAll(s, host).error, host)
    decreases |s|
  {
    hide ParseOne, Starts, Wrong;
    if ParseOne(s, host).Err? {
      OneIsWrong(s, host);
      assert ReadsThen(s, [], s, host);
    } else {
      var item := ParseOne(s, host).value;
      StartSplits(s, host);
      ErrorsSayWhatIsWrong(item.rest, host);
      var ms, rest :| ReadsThen(item.rest, ms, rest, host) && Wrong(rest, ParseAll(item.rest, host).error, host);
      var all := [item.matcher] + ms;
      assert all[1..] == ms && all[0] == item.matcher;
      assert ReadsThen(s, all, rest, host);
    }
  }
}
