/** Shell lines of agent commands and the one-shot grants that cover them (policy.rs). */
module Policy {
  import opened Wrappers
  import opened Text

  /** How long an allowed "execute" permission covers the command that follows it (nanoseconds). */
  const GRANT_WINDOW: nat := 30_000_000_000

  predicate IsPlainChar(c: char) {
    'a' <= c <= 'z' || 'A' <= c <= 'Z' || '0' <= c <= '9' || c in "_@%+=:,./-"
  }

  /** Characters an argument may hold without quoting. */
  predicate IsPlain(arg: string) {
    arg != [] && forall c :: c in arg ==> IsPlainChar(c)
  }

  /** One argument as the shell line shows it. */
  function Quoted(arg: string): string {
    if IsPlain(arg) then arg else SingleQuoted(arg)
  }

  function SingleQuoted(arg: string): string {
    "'" + Replace(arg, '\'', "'\\''") + "'"
  }

  /** `command` followed by every argument, quoted where needed. */
  function Line(command: string, args: seq<string>): string {
    if args == [] then command
    else Line(command, args[..|args| - 1]) + " " + Quoted(args[|args| - 1])
  }

  /** An argument is shown as it is exactly when it has something in it, and only letters and digits of ASCII
      and ten marks; every other one is between quotes. */
  lemma QuotedExactly(arg: string)
    ensures Quoted(arg) == arg <==>
      arg != [] && forall k :: 0 <= k < |arg| ==>
        || 'a' <= arg[k] <= 'z' || 'A' <= arg[k] <= 'Z' || '0' <= arg[k] <= '9'
        || arg[k] == '_' || arg[k] == '@' || arg[k] == '%' || arg[k] == '+' || arg[k] == '=' || arg[k] == ':'
        || arg[k] == ',' || arg[k] == '.' || arg[k] == '/' || arg[k] == '-'
    ensures Quoted(arg) != arg ==> |Quoted(arg)| >= 2 && Quoted(arg)[0] == '\'' && Quoted(arg)[|Quoted(arg)| - 1] == '\''
  {
    ReplaceGrows(arg);
    assert IsPlain(arg) <==> arg != [] && forall k :: 0 <= k < |arg| ==> IsPlainChar(arg[k]);
  }

  lemma {:induction false} ReplaceGrows(s: string)
    ensures |Replace(s, '\'', "'\\''")| >= |s|
  {
    if s != [] {
      ReplaceGrows(s[1..]);
    }
  }

  /** What the prompt shows and what `sh -c` runs. */
  method CommandLine(command: string, args: seq<string>) returns (line: string)
    ensures line == Line(command, args)
  {
    line := command;
    for i := 0 to |args|
      invariant line == Line(command, args[..i])
    {
      line := line + " ";
      if IsPlain(args[i]) {
        line := line + args[i];
      } else {
        line := line + "'";
        line := line + Replace(args[i], '\'', "'\\''");
        line := line + "'";
      }
      assert args[..i + 1][..i] == args[..i];
      assert Quoted(args[i]) == if IsPlain(args[i]) then args[i] else "'" + Replace(args[i], '\'', "'\\''") + "'";
    }
    assert args[..|args|] == args;
  }

  /** The last path component of a program name. */
  function BaseName(command: string): string {
    if command == [] then []
    else if command[|command| - 1] == '/' || command[|command| - 1] == '\\' then []
    else BaseName(command[..|command| - 1]) + [command[|command| - 1]]
  }

  /** The command inside a shell wrapper. */
  function ShellInner(command: string, args: seq<string>): Option<string> {
    if && BaseName(command) in ["sh", "bash", "zsh", "dash", "fish"]
       && |args| == 2 && args[0] in ["-c", "-lc", "-ic"]
    then Some(args[1]) else None
  }

  function Normalize(text: string): string {
    Join(SplitWhitespace(text), " ")
  }

  /** Two texts are the same command exactly when they have the same words, in the same order. */
  lemma SameCommandExactly(a: string, b: string)
    ensures Normalize(a) == Normalize(b) <==> SplitWhitespace(a) == SplitWhitespace(b)
  {
    SplitAreWords(a);
    SplitAreWords(b);
    SplitJoined(SplitWhitespace(a));
    SplitJoined(SplitWhitespace(b));
  }

  /** A command is blank, and then covered by nothing, exactly when it has no word. */
  lemma BlankExactly(text: string)
    ensures Normalize(text) == [] <==> SplitWhitespace(text) == []
  {
    SplitAreWords(text);
    SplitJoined(SplitWhitespace(text));
  }

  /** The lines a grant is compared with: the whole line and what a shell wrapper runs. */
  function Lines(command: string, args: seq<string>): seq<string> {
    [Line(command, args)]
    + match ShellInner(command, args) { case Some(inner) => [inner] case None => [] }
  }

  /** `now.duration_since(at)`, which saturates at zero. */
  function Since(at: nat, now: nat): nat {
    if now < at then 0 else now - at
  }

  /** Whether a grant given at `at` for `command` covers running one of `lines` now. */
  predicate Covers(at: nat, command: Option<string>, lines: seq<string>, now: nat) {
    && Since(at, now) <= GRANT_WINDOW
    && command.Some?
    && Normalize(command.value) != []
    && exists line :: line in lines && Normalize(line) == Normalize(command.value)
  }

  // ----- What a grant covers, in plain words -----

  predicate IsShell(name: string) { name == "sh" || name == "bash" || name == "zsh" || name == "dash" || name == "fish" }

  predicate IsFlag(arg: string) { arg == "-c" || arg == "-lc" || arg == "-ic" }

  predicate IsFolder(dir: string) { dir == [] || dir[|dir| - 1] == '/' || dir[|dir| - 1] == '\\' }

  /** The program is one of the shells, by its name or a path to it. */
  ghost predicate NamesShell(command: string) {
    exists dir, name :: command == dir + name && IsFolder(dir) && IsShell(name)
  }

  predicate NoSlash(s: string) { forall k :: 0 <= k < |s| ==> s[k] != '/' && s[k] != '\\' }

  lemma {:induction false} BaseNameOf(dir: string, name: string)
    requires NoSlash(name) && IsFolder(dir)
    ensures BaseName(dir + name) == name
    decreases |name|
  {
    if name == [] {
      assert dir + name == dir;
    } else {
      var front := name[..|name| - 1];
      assert (dir + name)[..|dir + name| - 1] == dir + front;
      BaseNameOf(dir, front);
    }
  }

  lemma {:induction false} BaseNameEnds(command: string) returns (dir: string)
    ensures command == dir + BaseName(command) && IsFolder(dir)
    decreases |command|
  {
    if command == [] || command[|command| - 1] == '/' || command[|command| - 1] == '\\' {
      dir := command;
    } else {
      dir := BaseNameEnds(command[..|command| - 1]);
      assert command == command[..|command| - 1] + [command[|command| - 1]];
    }
  }

  lemma ShellHasNoSlash(name: string)
    requires IsShell(name)
    ensures NoSlash(name)
  {
  }

  lemma ShellInnerIs(command: string, args: seq<string>)
    ensures ShellInner(command, args)
            == if IsShell(BaseName(command)) && |args| == 2 && IsFlag(args[0]) then Some(args[1]) else None
  {
    hide BaseName;
  }

  /** What a shell wrapper runs: the third word of `sh -c …` and the like, and of nothing else. */
  lemma ShellInnerExactly(command: string, args: seq<string>, inner: string)
    ensures ShellInner(command, args) == Some(inner) <==>
              NamesShell(command) && |args| == 2 && IsFlag(args[0]) && args[1] == inner
  {
    hide ShellInner, IsShell, IsFlag, BaseName;
    ShellInnerIs(command, args);
    var dir := BaseNameEnds(command);
    if NamesShell(command) {
      var d, name :| command == d + name && IsFolder(d) && IsShell(name);
      ShellHasNoSlash(name);
      BaseNameOf(d, name);
    }
  }

  /** A grant covers running a command exactly when: it is at most 30 s old, it shows a command that has
      a word, and a line has the same words in the same order. */
  lemma CoversExactly(at: nat, command: Option<string>, lines: seq<string>, now: nat)
    ensures Covers(at, command, lines, now) <==>
              && now <= at + 30_000_000_000 && command.Some? && SplitWhitespace(command.value) != []
              && exists line :: line in lines && SplitWhitespace(line) == SplitWhitespace(command.value)
  {
    hide Normalize;
    if command.Some? {
      BlankExactly(command.value);
      forall line ensures Normalize(line) == Normalize(command.value) <==> SplitWhitespace(line) == SplitWhitespace(command.value) {
        SameCommandExactly(line, command.value);
      }
    }
  }

  /** The words are those of the line, or of what a shell wrapper runs. */
  ghost predicate SaysSame(words: seq<string>, command: string, args: seq<string>) {
    || SplitWhitespace(Line(command, args)) == words
    || (NamesShell(command) && |args| == 2 && IsFlag(args[0]) && SplitWhitespace(args[1]) == words)
  }

  /** The same for a command with its arguments. */
  lemma CoversCommandExactly(at: nat, granted: Option<string>, command: string, args: seq<string>, now: nat)
    ensures Covers(at, granted, Lines(command, args), now) <==>
              && now <= at + 30_000_000_000 && granted.Some? && SplitWhitespace(granted.value) != []
              && SaysSame(SplitWhitespace(granted.value), command, args)
  {
    hide SplitWhitespace, Line, NamesShell, Covers, IsFlag, Lines;
    var lines := Lines(command, args);
    CoversExactly(at, granted, lines, now);
    LinesAre(command, args);
    if granted.Some? {
      var words := SplitWhitespace(granted.value);
      if SaysSame(words, command, args) {
        var line := if SplitWhitespace(Line(command, args)) == words then Line(command, args) else args[1];
        assert line in lines && SplitWhitespace(line) == words;
      }
    }
  }

  lemma LinesAre(command: string, args: seq<string>)
    ensures forall line :: line in Lines(command, args) <==>
              || line == Line(command, args)
              || (NamesShell(command) && |args| == 2 && IsFlag(args[0]) && args[1] == line)
  {
    hide Line, NamesShell, ShellInner, IsFlag;
    var lines := Lines(command, args);
    forall line ensures line in lines <==> line == Line(command, args) || ShellInner(command, args) == Some(line) {
      assert lines[0] == Line(command, args);
      assert ShellInner(command, args).Some? ==> lines[1] == ShellInner(command, args).value;
    }
    forall line ensures ShellInner(command, args) == Some(line) <==> NamesShell(command) && |args| == 2 && IsFlag(args[0]) && args[1] == line {
      ShellInnerExactly(command, args, line);
    }
  }
}

/** The quoting and word-splitting rules of a POSIX shell, as far as they leave words unexpanded:
    sections 2.2.1 to 2.2.3 and 2.3 of the POSIX.1-2017 Shell Command Language. Any unquoted
    character that the shell would give a meaning makes the result `None`. */
module Shell {
  import opened Wrappers
  import opened Text
  import opened Policy

  datatype State =
    | Between
    | Word(word: string)
    | Single(word: string)
    | Double(word: string)
    | DoubleEscape(word: string)
    | Escape(word: string, started: bool)

  predicate Blank(c: char) { c == ' ' || c == '\t' }

  /** Unquoted characters that end a word, expand, or start a comment. */
  predicate Special(c: char) {
    c in "|&;<>()$`\n*?[#~!{}"
  }

  function Start(word: string, c: char): Option<State> {
    if c == '\'' then Some(Single(word))
    else if c == '"' then Some(Double(word))
    else if Special(c) then None
    else Some(Word(word + [c]))
  }

  /** Splits the rest of a line, from the state the lexer is in, into the words it passes on. */
  function Lex(s: string, state: State): Option<seq<string>>
    decreases |s|
  {
    if s == [] then
      match state
      case Between => Some([])
      case Word(w) => Some([w])
      case _ => None
    else
      var c, rest := s[0], s[1..];
      match state
      case Between =>
        if Blank(c) then Lex(rest, Between)
        else if c == '\\' then Lex(rest, Escape([], false))
        else (match Start([], c) case Some(next) => Lex(rest, next) case None => None)
      case Word(w) =>
        if Blank(c) then Cons(w, Lex(rest, Between))
        else if c == '\\' then Lex(rest, Escape(w, true))
        else (match Start(w, c) case Some(next) => Lex(rest, next) case None => None)
      case Single(w) =>
        if c == '\'' then Lex(rest, Word(w)) else Lex(rest, Single(w + [c]))
      case Double(w) =>
        if c == '"' then Lex(rest, Word(w))
        else if c == '$' || c == '`' then None
        else if c == '\\' then Lex(rest, DoubleEscape(w))
        else Lex(rest, Double(w + [c]))
      case DoubleEscape(w) =>
        if c == '\n' then Lex(rest, Double(w))
        else if c in "$`\"\\" then Lex(rest, Double(w + [c]))
        else Lex(rest, Double(w + ['\\', c]))
      case Escape(w, started) =>
        if c == '\n' then Lex(rest, if started then Word(w) else Between)
        else Lex(rest, Word(w + [c]))
  }

  function Cons(w: string, words: Option<seq<string>>): Option<seq<string>> {
    match words
    case Some(ws) => Some([w] + ws)
    case None => None
  }

  function Append(ws: seq<string>, words: Option<seq<string>>): Option<seq<string>> {
    match words
    case Some(more) => Some(ws + more)
    case None => None
  }

  /** A line that splits into words still does when a blank and more text follow it. */
  lemma {:induction false} LexThenMore(s: string, state: State, t: string)
    requires Lex(s, state).Some?
    ensures Lex(s + " " + t, state) == Append(Lex(s, state).value, Lex(t, Between))
    decreases |s|
  {
    var all := s + " " + t;
    if s == [] {
      assert all[0] == ' ' && all[1..] == t;
      var more := Lex(t, Between);
      assert more.Some? ==> [] + more.value == more.value;
    } else {
      assert all[0] == s[0] && all[1..] == s[1..] + " " + t;
      var c := s[0];
      match state
      case Between =>
        if Blank(c) { LexThenMore(s[1..], Between, t); }
        else if c == '\\' { LexThenMore(s[1..], Escape([], false), t); }
        else { LexThenMore(s[1..], Start([], c).value, t); }
      case Word(w) =>
        if Blank(c) {
          LexThenMore(s[1..], Between, t);
          var words, more := Lex(s[1..], Between).value, Lex(t, Between);
          assert more.Some? ==> [w] + (words + more.value) == [w] + words + more.value;
        }
        else if c == '\\' { LexThenMore(s[1..], Escape(w, true), t); }
        else { LexThenMore(s[1..], Start(w, c).value, t); }
      case Single(w) => LexThenMore(s[1..], if c == '\'' then Word(w) else Single(w + [c]), t);
      case Double(w) =>
        LexThenMore(s[1..], if c == '"' then Word(w) else if c == '\\' then DoubleEscape(w) else Double(w + [c]), t);
      case DoubleEscape(w) =>
        LexThenMore(s[1..], Double(if c == '\n' then w else if c in "$`\"\\" then w + [c] else w + ['\\', c]), t);
      case Escape(w, started) =>
        LexThenMore(s[1..], if c != '\n' then Word(w + [c]) else if started then Word(w) else Between, t);
    }
  }

  lemma {:induction false} LexPlain(arg: string, w: string)
    requires forall c :: c in arg ==> IsPlainChar(c)
    ensures Lex(arg, Word(w)) == Some([w + arg])
  {
    if arg == [] {
      assert w + arg == w;
    } else {
      assert arg[0] in arg;
      LexPlain(arg[1..], w + [arg[0]]);
      assert w + [arg[0]] + arg[1..] == w + arg;
    }
  }

  lemma {:induction false} LexInsideQuotes(arg: string, w: string)
    ensures Lex(Replace(arg, '\'', "'\\''") + "'", Single(w)) == Some([w + arg])
  {
    var text := Replace(arg, '\'', "'\\''") + "'";
    if arg == [] {
      assert text == "'" && text[1..] == [] && w + arg == w;
    } else {
      var c, tail := arg[0], Replace(arg[1..], '\'', "'\\''") + "'";
      LexInsideQuotes(arg[1..], w + [c]);
      assert w + [c] + arg[1..] == w + arg;
      if c == '\'' {
        assert text == "'\\''" + tail;
        LexQuoteInQuotes(w, tail);
      } else {
        assert text[0] == c && text[1..] == tail;
      }
    }
  }

  /** A quote inside single quotes: close, an escaped quote, open again. */
  lemma LexQuoteInQuotes(w: string, tail: string)
    ensures Lex("'\\''" + tail, Single(w)) == Lex(tail, Single(w + ['\'']))
  {
    LexStep('\'', "\\''" + tail, Single(w));
    assert "'\\''" + tail == ['\''] + ("\\''" + tail);
    LexStep('\\', "''" + tail, Word(w));
    assert "\\''" + tail == ['\\'] + ("''" + tail);
    LexStep('\'', "'" + tail, Escape(w, true));
    assert "''" + tail == ['\''] + ("'" + tail);
    LexStep('\'', tail, Word(w + ['\'']));
    assert "'" + tail == ['\''] + tail;
  }

  /** One character at a time. */
  lemma LexStep(c: char, rest: string, state: State)
    ensures c == '\'' && state.Single? ==> Lex([c] + rest, state) == Lex(rest, Word(state.word))
    ensures c == '\\' && state.Word? ==> Lex([c] + rest, state) == Lex(rest, Escape(state.word, true))
    ensures c == '\'' && state.Escape? ==> Lex([c] + rest, state) == Lex(rest, Word(state.word + [c]))
    ensures c == '\'' && state.Word? ==> Lex([c] + rest, state) == Lex(rest, Single(state.word))
  {
    assert ([c] + rest)[0] == c && ([c] + rest)[1..] == rest;
  }

  /** A single-quoted text is one word: the text itself, whatever it holds. */
  lemma LexSingleQuoted(arg: string)
    ensures Lex(SingleQuoted(arg), Between) == Some([arg])
  {
    var text := SingleQuoted(arg);
    var inside := Replace(arg, '\'', "'\\''") + "'";
    assert text == "'" + inside;
    assert text[0] == '\'' && text[1..] == inside;
    assert Lex(text, Between) == Lex(inside, Single([]));
    LexInsideQuotes(arg, []);
    assert [] + arg == arg;
  }

  lemma LexQuoted(arg: string)
    ensures Lex(Quoted(arg), Between) == Some([arg])
  {
    if IsPlain(arg) {
      assert arg[0] in arg && !Blank(arg[0]) && !Special(arg[0]);
      assert [] + [arg[0]] == [arg[0]];
      assert Start([], arg[0]) == Some(Word([arg[0]]));
      assert Lex(arg, Between) == Lex(arg[1..], Word([arg[0]]));
      LexPlain(arg[1..], [arg[0]]);
      assert [arg[0]] + arg[1..] == arg;
    } else {
      LexSingleQuoted(arg);
    }
  }

  /** The shell gives the program exactly the words of `command` and then exactly `args`. */
  lemma {:induction false} CommandLineRoundTrip(command: string, args: seq<string>)
    requires Lex(command, Between).Some?
    ensures Lex(Line(command, args), Between) == Some(Lex(command, Between).value + args)
  {
    hide Lex, Quoted;
    if args == [] {
      assert Lex(command, Between).value + args == Lex(command, Between).value;
    } else {
      var last := args[|args| - 1];
      CommandLineRoundTrip(command, args[..|args| - 1]);
      LexThenMore(Line(command, args[..|args| - 1]), Between, Quoted(last));
      LexQuoted(last);
      assert args[..|args| - 1] + [last] == args;
      assert Lex(command, Between).value + args[..|args| - 1] + [last] == Lex(command, Between).value + args;
    }
  }
}
