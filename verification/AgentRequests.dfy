/** What each request of an agent does to the core, in full and in plain words. */
module AgentRequests {
  import opened Wrappers
  import opened AgentTypes
  import opened AgentSteps
  import opened AgentChoices
  import AgentAuthority
  import Policy
  import Text
  import Transcripts

  // ----- Plain words -----

  /** The first thread of the agent with this session. */
  ghost predicate IsOf(c: Core, agent: string, session: string, i: nat) {
    && i < |c.threads| && c.threads[i].agent == agent && c.threads[i].session == Some(session)
    && forall k :: 0 <= k < i ==> !(c.threads[k].agent == agent && c.threads[k].session == Some(session))
  }

  ghost predicate NoneOf(c: Core, agent: string, session: string) {
    forall k :: 0 <= k < |c.threads| ==> !(c.threads[k].agent == agent && c.threads[k].session == Some(session))
  }

  lemma OfExactly(c: Core, agent: string, session: string)
    ensures match First(c.threads, BySession(agent, session))
            case None => NoneOf(c, agent, session)
            case Some(i) => IsOf(c, agent, session, i) && forall k: nat :: IsOf(c, agent, session, k) ==> k == i
  {
    var w := BySession(agent, session);
    FirstIsFirst(c.threads, w);
    assert forall k :: 0 <= k < |c.threads| ==>
      (Fits(c.threads[k], w) <==> c.threads[k].agent == agent && c.threads[k].session == Some(session));
  }

  /** Nothing changes but that the request is told this. */
  function Saying(c: Core, token: Token, reply: Reply): Core { c.(log := c.log + [Replied(token, reply)]) }

  /** One more card, at the end of the thread's, with the next id; nothing else changes. */
  function Asking(c: Core, i: nat, kind: PendingKind, token: Token, launch: Option<Launch>): Core
    requires i < |c.threads|
  {
    var card := Pending(c.nextPending + 1, kind, Some(token), launch, None);
    c.(nextPending := c.nextPending + 1, threads := c.threads[i := c.threads[i].(pending := c.threads[i].pending + [card])])
  }

  lemma PushIsAsking(c: Core, i: nat, kind: PendingKind, token: Token, launch: Option<Launch>)
    requires i < |c.threads|
    ensures Push(c, i, kind, Some(token), launch, None) == Asking(c, i, kind, token, launch)
  {
  }

  // ----- Permission requests -----

  /** The thread knows the tool call: its newest entry with that id is this one. */
  ghost predicate Knows(es: seq<Transcripts.Entry>, id: string, tool: Transcripts.Tool) {
    exists k :: 0 <= k < |es| && es[k] == Transcripts.ToolEntry(tool) && tool.id == id
      && forall j :: k < j < |es| ==> !(es[j].ToolEntry? && es[j].tool.id == id)
  }

  ghost predicate KnowsNone(es: seq<Transcripts.Entry>, id: string) {
    forall j :: 0 <= j < |es| ==> !(es[j].ToolEntry? && es[j].tool.id == id)
  }

  lemma {:induction false} FindExactly(es: seq<Transcripts.Entry>, id: string)
    ensures match Transcripts.Find(es, id)
            case None => KnowsNone(es, id)
            case Some(tool) => Knows(es, id, tool)
  {
    if es != [] {
      var front := es[..|es| - 1];
      FindExactly(front, id);
      if !Transcripts.IsTool(es[|es| - 1], id) {
        if Transcripts.Find(front, id).Some? {
          var tool := Transcripts.Find(front, id).value;
          var k :| 0 <= k < |front| && front[k] == Transcripts.ToolEntry(tool) && tool.id == id
            && forall j :: k < j < |front| ==> !(front[j].ToolEntry? && front[j].tool.id == id);
          assert es[k] == front[k];
        }
      } else {
        assert es[|es| - 1].tool.id == id;
      }
    }
  }

  /** The title the thread knows the tool call by. */
  ghost predicate KnownBy(t: Thread, id: string, known: Option<string>) {
    match known
    case None => KnowsNone(t.entries, id)
    case Some(title) => exists tool :: Knows(t.entries, id, tool) && tool.title == title
  }

  lemma KnownExactly(t: Thread, p: PermissionRequest)
    ensures KnownBy(t, p.tool, KnownTitle(t, p))
  {
    hide Knows, KnowsNone, Transcripts.Find;
    FindExactly(t.entries, p.tool);
  }

  /** The card shows what the request says, and else what the thread knows of the tool call. */
  ghost predicate ShowsRequest(kind: PendingKind, t: Thread, p: PermissionRequest) {
    && kind.Permission? && kind.tool == p.tool
    && |kind.choices| == |p.options|
    && (forall k :: 0 <= k < |p.options| ==>
          kind.choices[k].id == p.options[k].id
          && (kind.choices[k].allow <==> p.options[k].kind == AllowAlways || p.options[k].kind == AllowOnce))
    && (KnowsNone(t.entries, p.tool) ==>
          && kind.title == (if p.title.Some? then p.title.value else "A tool call")
          && kind.command == (if p.input.Some? then p.input.value.command else None)
          && (kind.execute <==> p.kind == Some(Transcripts.Execute)))
    && (forall tool :: Knows(t.entries, p.tool, tool) ==>
          && kind.title == (if p.title.Some? then p.title.value else tool.title)
          && (kind.execute <==> (if p.kind.Some? then p.kind else tool.kind) == Some(Transcripts.Execute))
          && (if p.input.Some? && p.input.value.command.Some? then kind.command == p.input.value.command
              else kind.command == if tool.input.Some? then tool.input.value.command else None))
  }

  lemma {:induction false} ChoicesExactly(options: seq<PermissionOption>)
    ensures |Choices(options)| == |options|
    ensures forall k :: 0 <= k < |options| ==>
              Choices(options)[k].id == options[k].id
              && (Choices(options)[k].allow <==> options[k].kind == AllowAlways || options[k].kind == AllowOnce)
  {
    if options != [] {
      ChoicesExactly(options[1..]);
    }
  }

  lemma OneKnown(es: seq<Transcripts.Entry>, id: string, a: Transcripts.Tool, b: Transcripts.Tool)
    requires Knows(es, id, a) && Knows(es, id, b)
    ensures a == b && !KnowsNone(es, id)
  {
  }

  lemma KindShows(t: Thread, p: PermissionRequest)
    ensures ShowsRequest(PermissionKind(t, p), t, p)
  {
    hide Knows, KnowsNone, Choices, Transcripts.Find;
    ChoicesExactly(p.options);
    FindExactly(t.entries, p.tool);
    if Transcripts.Find(t.entries, p.tool).Some? {
      var known := Transcripts.Find(t.entries, p.tool).value;
      OneKnown(t.entries, p.tool, known, known);
      forall tool | Knows(t.entries, p.tool, tool) ensures tool == known {
        OneKnown(t.entries, p.tool, tool, known);
      }
    } else {
      forall tool ensures !Knows(t.entries, p.tool, tool) {
        NoneKnown(t.entries, p.tool, tool);
      }
    }
  }

  lemma NoneKnown(es: seq<Transcripts.Entry>, id: string, tool: Transcripts.Tool)
    requires KnowsNone(es, id)
    ensures !Knows(es, id, tool)
  {
  }

  /** Without the user: the option of a request for one of Kubyl's own tools. */
  ghost predicate PassesAs(t: Thread, p: PermissionRequest, id: string) {
    && LastingFirst(p.options, id)
    && exists known :: KnownBy(t, p.tool, known) && ForOwnTool(p, known)
  }

  /** A permission request is cancelled when its session has no thread; the first option that allows for
      ever, else once, is selected for Kubyl's own tools, at once; every other request becomes a card that
      shows it. Nothing else changes. */
  lemma PermissionsExactly(c: Core, agent: string, session: string, p: PermissionRequest, token: Token, wire: Option<nat>)
    ensures var d := Step(c, Call(agent, PermissionCall(session, p, token), wire));
            && (NoneOf(c, agent, session) ==> d == Saying(c, token, PermissionCancelled))
            && forall i: nat :: IsOf(c, agent, session, i) ==>
                 var t := c.threads[i];
                 if exists id :: PassesAs(t, p, id)
                 then exists id, known :: PassesAs(t, p, id) && KnownBy(t, p.tool, known)
                        && d == c.(log := c.log + [LetThrough(t.id, p, known, token), Replied(token, Selected(id))])
                 else exists kind :: ShowsRequest(kind, t, p) && d == Asking(c, i, kind, token, None)
  {
    hide NoneOf, IsOf, PermissionStep, PassesAs, ShowsRequest, KnownBy;
    var d := Step(c, Call(agent, PermissionCall(session, p, token), wire));
    assert d == PermissionStep(c, agent, session, p, token);
    OfExactly(c, agent, session);
    match First(c.threads, BySession(agent, session))
    case None =>
      NoThread(c, agent, session);
      PermissionOf(c, agent, session, p, token);
    case Some(i) =>
      SomeThread(c, agent, session, i);
      PermissionOf(c, agent, session, p, token);
      PassExactly(c, i, p);
      KindShows(c.threads[i], p);
      KnownExactly(c.threads[i], p);
      PushIsAsking(c, i, PermissionKind(c.threads[i], p), token, None);
  }

  lemma NoThread(c: Core, agent: string, session: string)
    requires NoneOf(c, agent, session)
    ensures forall i: nat :: !IsOf(c, agent, session, i)
  {
  }

  lemma SomeThread(c: Core, agent: string, session: string, i: nat)
    requires IsOf(c, agent, session, i)
    ensures !NoneOf(c, agent, session)
  {
  }

  lemma PermissionOf(c: Core, agent: string, session: string, p: PermissionRequest, token: Token)
    ensures PermissionStep(c, agent, session, p, token) ==
            match First(c.threads, BySession(agent, session))
            case None => Saying(c, token, PermissionCancelled)
            case Some(i) =>
              var t := c.threads[i];
              if Kubyl(t, p) && AllowOption(p.options).Some?
              then c.(log := c.log + [LetThrough(t.id, p, KnownTitle(t, p), token), Replied(token, Selected(AllowOption(p.options).value))])
              else Push(c, i, PermissionKind(t, p), Some(token), None, None)
  {
    hide Kubyl, AllowOption, PermissionKind, KnownTitle, Push;
  }

  lemma OneKnownTitle(t: Thread, id: string, a: Option<string>, b: Option<string>)
    requires KnownBy(t, id, a) && KnownBy(t, id, b)
    ensures a == b
  {
    hide Knows, KnowsNone;
    match a
    case None =>
      if b.Some? {
        var tool :| Knows(t.entries, id, tool) && tool.title == b.value;
        NoneKnown(t.entries, id, tool);
      }
    case Some(title) =>
      var tool :| Knows(t.entries, id, tool) && tool.title == title;
      match b {
        case None => NoneKnown(t.entries, id, tool);
        case Some(other) =>
          var second :| Knows(t.entries, id, second) && second.title == other;
          OneKnown(t.entries, id, tool, second);
      }
  }

  lemma PassExactly(c: Core, i: nat, p: PermissionRequest)
    requires i < |c.threads|
    ensures var t := c.threads[i];
            var passes := Kubyl(t, p) && AllowOption(p.options).Some?;
            && (passes ==> PassesAs(t, p, AllowOption(p.options).value))
            && (!passes ==> forall id :: !PassesAs(t, p, id))
  {
    hide Kubyl, AllowOption, ForOwnTool, LastingFirst, KnownBy, KnownTitle;
    var t := c.threads[i];
    KubylExactly(t, p);
    KnownExactly(t, p);
    forall id ensures LastingFirst(p.options, id) <==> AllowOption(p.options) == Some(id) {
      AllowOptionExactly(p.options, id);
    }
    forall known | KnownBy(t, p.tool, known) ensures known == KnownTitle(t, p) {
      OneKnownTitle(t, p.tool, known, KnownTitle(t, p));
    }
  }

  // ----- Commands -----

  /** The name is KUBECONFIG, in capitals or not. */
  predicate IsKubeconfig(name: string) {
    |name| == 10 && forall k :: 0 <= k < 10 ==> name[k] == "KUBECONFIG"[k] || name[k] == "kubeconfig"[k]
  }

  /** The variables that are not KUBECONFIG, in their order. */
  ghost predicate Without(env: seq<EnvVar>, kept: seq<EnvVar>)
    decreases |env|
  {
    if env == [] then kept == []
    else if IsKubeconfig(env[0].name) then Without(env[1..], kept)
    else kept != [] && kept[0] == env[0] && Without(env[1..], kept[1..])
  }

  lemma NameExactly(name: string)
    ensures SameName(name, "KUBECONFIG") <==> IsKubeconfig(name)
  {
    var upper, lower := "KUBECONFIG", "kubeconfig";
    if |name| == 10 {
      forall k | 0 <= k < 10 ensures Lower(name[k]) == Lower(upper[k]) <==> name[k] == upper[k] || name[k] == lower[k] {
        Capital(k);
        LowerExactly(name[k], upper[k], lower[k]);
      }
    }
  }

  lemma Capital(k: nat)
    requires k < 10
    ensures 'A' <= "KUBECONFIG"[k] <= 'Z' && "kubeconfig"[k] as int == "KUBECONFIG"[k] as int + 32
  {
    if k < 5 {
      assert k == 0 || k == 1 || k == 2 || k == 3 || k == 4;
    } else {
      assert k == 5 || k == 6 || k == 7 || k == 8 || k == 9;
    }
  }

  lemma LowerExactly(c: char, upper: char, lower: char)
    requires 'A' <= upper <= 'Z' && lower as int == upper as int + 32
    ensures Lower(c) == Lower(upper) <==> c == upper || c == lower
  {
  }

  lemma {:induction false} EnvExactly(env: seq<EnvVar>)
    ensures Without(env, SafeEnv(env)) && forall kept :: Without(env, kept) ==> kept == SafeEnv(env)
  {
    hide SameName, IsKubeconfig;
    if env != [] {
      NameExactly(env[0].name);
      EnvExactly(env[1..]);
      var rest := SafeEnv(env[1..]);
      assert ([env[0]] + rest)[1..] == rest && [] + rest == rest;
      forall kept | Without(env, kept) ensures kept == SafeEnv(env) {
        if !IsKubeconfig(env[0].name) {
          assert Without(env[1..], kept[1..]) && kept == [kept[0]] + kept[1..];
        } else {
          assert Without(env[1..], kept);
        }
      }
    }
  }

  /** The thread's grant, at most 30 s old, is for just these words; nothing is set, nothing is odd. */
  ghost predicate Granted(t: Thread, r: TerminalRequest, kept: seq<EnvVar>, now: nat) {
    && kept == [] && r.env == [] && !r.warned && t.grant.Some? && now <= t.grant.value.at + 30_000_000_000
    && t.grant.value.command.Some? && Text.SplitWhitespace(t.grant.value.command.value) != []
    && Policy.SaysSame(Text.SplitWhitespace(t.grant.value.command.value), r.command, r.args)
  }

  lemma GrantedExactly(t: Thread, r: TerminalRequest, now: nat)
    ensures CoveredBy(t, r, now) <==> Granted(t, r, SafeEnv(r.env), now)
  {
    hide SafeEnv, Policy.Covers, Policy.Lines, Policy.SaysSame, Text.SplitWhitespace;
    if t.grant.Some? {
      Policy.CoversCommandExactly(t.grant.value.at, t.grant.value.command, r.command, r.args, now);
    }
  }

  /** What is asked to run: the command as it is, in its folder or the thread's. */
  function Asked(t: Thread, r: TerminalRequest, kept: seq<EnvVar>): Launch {
    Launch(r.command, r.args, kept, if r.cwd.Some? then r.cwd.value else t.cwd)
  }

  /** A granted command uses the grant up and runs, when its agent is there. */
  function RunningIt(c: Core, i: nat, r: TerminalRequest, token: Token): Core
    requires i < |c.threads| && c.threads[i].grant.Some?
  {
    var t := c.threads[i];
    var d := c.(threads := c.threads[i := t.(grant := None)]);
    if Connection(c, t.agent).None? then Saying(d, token, AgentStopped)
    else d.(jobs := d.jobs + [RunJob(token)],
            log := d.log + [Ran(t.id, Asked(t, r, []), t.grant.value.card, true, false, c.now, token)])
  }

  /** The card of a command shows its line, its folder, its environment without secrets, and whether
      anything about it is odd: a warning, or a KUBECONFIG that was asked for. */
  ghost predicate ShowsCommand(kind: PendingKind, t: Thread, r: TerminalRequest, kept: seq<EnvVar>) {
    && kind.Command? && kind.line == Policy.Line(r.command, r.args) && kind.cwd == Asked(t, r, kept).cwd
    && AgentAuthority.ShowsEnv(kind.env, kept) && (kind.warned <==> r.warned || |kept| < |r.env|)
  }

  lemma {:induction false} FewerKept(env: seq<EnvVar>)
    ensures |SafeEnv(env)| <= |env|
  {
    hide SameName;
    if env != [] {
      FewerKept(env[1..]);
    }
  }

  lemma TerminalOf(c: Core, agent: string, session: string, r: TerminalRequest, token: Token, i: nat)
    requires First(c.threads, BySession(agent, session)) == Some(i) && c.threads[i].agent == agent
    ensures var t, kept := c.threads[i], SafeEnv(r.env);
            && (CoveredBy(t, r, c.now) && kept == [] && r.env == [] && !r.warned ==>
                  t.grant.Some? && TerminalStep(c, agent, session, r, token) == RunningIt(c, i, r, token))
            && (!CoveredBy(t, r, c.now) ==>
                  TerminalStep(c, agent, session, r, token)
                  == Push(c, i, Command(Policy.Line(r.command, r.args), Asked(t, r, kept).cwd, ShownEnv(kept), r.warned || |kept| != |r.env|),
                          Some(token), Some(Asked(t, r, kept)), None))
  {
    hide Policy.Covers, Policy.Lines, Policy.Line, SafeEnv, Push, ShownEnv;
  }

  lemma NoThreadTerminal(c: Core, agent: string, session: string, r: TerminalRequest, token: Token)
    requires First(c.threads, BySession(agent, session)).None?
    ensures TerminalStep(c, agent, session, r, token) == Saying(c, token, ThreadClosed)
  {
  }

  /** A command of no thread is refused; one that the thread's grant is for uses the grant up and runs;
      every other becomes a card that shows it. Nothing else changes. */
  lemma CommandsExactly(c: Core, agent: string, session: string, r: TerminalRequest, token: Token, wire: Option<nat>, kept: seq<EnvVar>)
    requires Without(r.env, kept)
    ensures var d := Step(c, Call(agent, TerminalCall(session, r, token), wire));
            && (NoneOf(c, agent, session) ==> d == Saying(c, token, ThreadClosed))
            && forall i: nat :: IsOf(c, agent, session, i) ==>
                 var t := c.threads[i];
                 if Granted(t, r, kept, c.now) then d == RunningIt(c, i, r, token)
                 else exists kind :: ShowsCommand(kind, t, r, kept) && d == Asking(c, i, kind, token, Some(Asked(t, r, kept)))
  {
    hide NoneOf, TerminalStep, Without, Granted, CoveredBy, RunningIt, SafeEnv, Policy.Line;
    var d := Step(c, Call(agent, TerminalCall(session, r, token), wire));
    assert d == TerminalStep(c, agent, session, r, token);
    EnvExactly(r.env);
    FewerKept(r.env);
    OfExactly(c, agent, session);
    match First(c.threads, BySession(agent, session))
    case None =>
      NoThread(c, agent, session);
      NoThreadTerminal(c, agent, session, r, token);
    case Some(i) =>
      SomeThread(c, agent, session, i);
      CommandCard(c, agent, session, r, token, i);
  }

  lemma CommandCard(c: Core, agent: string, session: string, r: TerminalRequest, token: Token, i: nat)
    requires First(c.threads, BySession(agent, session)) == Some(i) && c.threads[i].agent == agent
    ensures var d, t, kept := TerminalStep(c, agent, session, r, token), c.threads[i], SafeEnv(r.env);
            if Granted(t, r, kept, c.now) then d == RunningIt(c, i, r, token)
            else exists kind :: ShowsCommand(kind, t, r, kept) && d == Asking(c, i, kind, token, Some(Asked(t, r, kept)))
  {
    hide TerminalStep, CoveredBy, RunningIt, SafeEnv, Policy.Line, Policy.SaysSame, Text.SplitWhitespace, Push, Asking;
    var t, kept := c.threads[i], SafeEnv(r.env);
    GrantedExactly(t, r, c.now);
    TerminalOf(c, agent, session, r, token, i);
    FewerKept(r.env);
    if !Granted(t, r, kept, c.now) {
      var kind := Command(Policy.Line(r.command, r.args), Asked(t, r, kept).cwd, ShownEnv(kept), r.warned || |kept| != |r.env|);
      assert ShowsCommand(kind, t, r, kept);
      PushIsAsking(c, i, kind, token, Some(Asked(t, r, kept)));
    }
  }

  // ----- Files and questions -----

  /** A file to read or write is refused without a thread; else it becomes a card that names it, and
      shows what is written and what was there. */
  lemma FilesExactly(c: Core, agent: string, session: string, path: string, before: Option<string>, content: string, token: Token, wire: Option<nat>)
    ensures var d, e := Step(c, Call(agent, ReadCall(session, path, token), wire)),
                        Step(c, Call(agent, WriteCall(session, path, before, content, token), wire));
            && (NoneOf(c, agent, session) ==> d == e == Saying(c, token, ThreadClosed))
            && forall i: nat :: IsOf(c, agent, session, i) ==>
                 d == Asking(c, i, Read(path), token, None) && e == Asking(c, i, Write(path, before, content), token, None)
  {
    hide NoneOf, IsOf;
    OfExactly(c, agent, session);
    match First(c.threads, BySession(agent, session))
    case None => NoThread(c, agent, session);
    case Some(i) => SomeThread(c, agent, session, i);
  }

  ghost predicate FirstRunning(c: Core, agent: string, i: nat) {
    && i < |c.threads| && c.threads[i].agent == agent && c.threads[i].status == Running
    && forall k :: 0 <= k < i ==> !(c.threads[k].agent == agent && c.threads[k].status == Running)
  }

  ghost predicate FirstAny(c: Core, agent: string, i: nat) {
    i < |c.threads| && c.threads[i].agent == agent && forall k :: 0 <= k < i ==> c.threads[k].agent != agent
  }

  /** The thread a question is for: that of its session; else the first the agent works on; else its
      first. */
  ghost predicate AskedOn(c: Core, agent: string, of: Option<string>, i: nat) {
    if of.Some? && !NoneOf(c, agent, of.value) then IsOf(c, agent, of.value, i)
    else if exists k: nat :: FirstRunning(c, agent, k) then FirstRunning(c, agent, i)
    else FirstAny(c, agent, i)
  }

  lemma PlaceExactly(c: Core, agent: string, of: Option<string>)
    ensures match ElicitationThread(c, agent, of)
            case None => forall k :: 0 <= k < |c.threads| ==> c.threads[k].agent != agent
            case Some(i) => AskedOn(c, agent, of, i)
  {
    hide NoneOf, IsOf;
    if of.Some? {
      OfExactly(c, agent, of.value);
      if First(c.threads, BySession(agent, of.value)).Some? {
        SomeThread(c, agent, of.value, First(c.threads, BySession(agent, of.value)).value);
      }
    }
    RunningExactly(c, agent);
    AnyExactly(c, agent);
  }

  lemma RunningExactly(c: Core, agent: string)
    ensures match First(c.threads, RunningOf(agent))
            case None => forall k: nat :: !FirstRunning(c, agent, k)
            case Some(i) => FirstRunning(c, agent, i)
  {
    FirstIsFirst(c.threads, RunningOf(agent));
    assert forall k :: 0 <= k < |c.threads| ==>
      (Fits(c.threads[k], RunningOf(agent)) <==> c.threads[k].agent == agent && c.threads[k].status == Running);
  }

  lemma AnyExactly(c: Core, agent: string)
    ensures match First(c.threads, AnyOf(agent))
            case None => forall k :: 0 <= k < |c.threads| ==> c.threads[k].agent != agent
            case Some(i) => FirstAny(c, agent, i)
  {
    FirstIsFirst(c.threads, AnyOf(agent));
    assert forall k :: 0 <= k < |c.threads| ==> (Fits(c.threads[k], AnyOf(agent)) <==> c.threads[k].agent == agent);
  }

  /** A question that was not understood is refused; one for an agent without threads is cancelled; every
      other becomes a card on the thread it is for. */
  lemma QuestionsExactly(c: Core, agent: string, question: Option<Question>, of: Option<string>, token: Token, wire: Option<nat>)
    ensures var d := Step(c, Call(agent, ElicitationCall(question, of, token), wire));
            if question.None? then d == Saying(c, token, InvalidParams)
            else if forall k :: 0 <= k < |c.threads| ==> c.threads[k].agent != agent then d == Saying(c, token, FormCancelled)
            else exists i: nat :: AskedOn(c, agent, of, i) && i < |c.threads| &&
                   d == Asking(c, i, match question.value
                                     case FormQuestion(message) => Form(message)
                                     case UrlQuestion(message, url, id) => OpenUrl(message, url, id), token, None)
  {
    hide AskedOn, ElicitationThread, Push, Asking;
    PlaceExactly(c, agent, of);
    if question.Some? && ElicitationThread(c, agent, of).Some? {
      PushIsAsking(c, ElicitationThread(c, agent, of).value, QuestionKind(question.value), token, None);
    }
  }

  // ----- Updates -----

  ghost predicate FirstReopened(c: Core, agent: string, session: string, i: nat) {
    && i < |c.threads| && c.threads[i].agent == agent && c.threads[i].resume == Some(session)
    && forall k :: 0 <= k < i ==> !(c.threads[k].agent == agent && c.threads[k].resume == Some(session))
  }

  lemma ReopenedExactly(c: Core, agent: string, session: string)
    ensures match First(c.threads, ByResume(agent, session))
            case None => forall k: nat :: !FirstReopened(c, agent, session, k)
            case Some(i) => FirstReopened(c, agent, session, i) && forall k: nat :: FirstReopened(c, agent, session, k) ==> k == i
  {
    var w := ByResume(agent, session);
    FirstIsFirst(c.threads, w);
    assert forall k :: 0 <= k < |c.threads| ==>
      (Fits(c.threads[k], w) <==> c.threads[k].agent == agent && c.threads[k].resume == Some(session));
  }

  /** An update goes into the transcript of its session's thread, else of the one that reopens the
      session; nowhere else, and it changes nothing else. */
  lemma UpdatesExactly(c: Core, agent: string, session: string, u: Transcripts.Update, wire: Option<nat>)
    ensures var d := Step(c, Call(agent, UpdateCall(session, u), wire));
            && (forall i: nat :: IsOf(c, agent, session, i) || (NoneOf(c, agent, session) && FirstReopened(c, agent, session, i)) ==>
                  d == c.(threads := c.threads[i := c.threads[i].(entries := Transcripts.Applied(c.threads[i].entries, u))]))
            && (NoneOf(c, agent, session) && (forall i: nat :: !FirstReopened(c, agent, session, i)) ==> d == c)
  {
    hide NoneOf, IsOf, FirstReopened, Transcripts.Applied;
    OfExactly(c, agent, session);
    ReopenedExactly(c, agent, session);
    match First(c.threads, BySession(agent, session))
    case None => NoThread(c, agent, session);
    case Some(i) => SomeThread(c, agent, session, i);
  }
}
