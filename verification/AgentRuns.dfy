/** Every event is a chain of moves, so what every move keeps, every run keeps. */
module AgentRuns {
  import opened Wrappers
  import opened AgentTypes
  import opened AgentSteps
  import opened AgentMoves
  import Transcripts
  import Policy

  /** Threads are in the order of their ids, and no id was given twice. */
  ghost predicate Ids(c: Core) {
    && (forall i :: 0 <= i < |c.threads| ==> c.threads[i].id <= c.nextThread)
    && (forall i, j :: 0 <= i < j < |c.threads| ==> c.threads[i].id < c.threads[j].id)
  }

  lemma OwnId(c: Core, i: nat)
    requires Ids(c) && i < |c.threads|
    ensures First(c.threads, ById(c.threads[i].id)) == Some(i)
  {
    FirstIsFirst(c.threads, ById(c.threads[i].id));
    var k := First(c.threads, ById(c.threads[i].id));
    assert Fits(c.threads[i], ById(c.threads[i].id));
    assert k.Some?;
  }

  // ----- What the environment promises of an event -----

  ghost predicate NewWires(c: Core, agent: string, wire: Option<nat>) {
    wire.Some? ==> NewWire(c, agent, wire.value)
  }

  ghost predicate AtRest(c: Core, id: nat) {
    forall i :: 0 <= i < |c.threads| && c.threads[i].id == id ==> !c.threads[i].status.Running?
  }

  /** Agents and the user keep turns apart: a session opens only while no other thread has it and no
      prompt of it, or of the thread that gets it, is in flight; an opening or a sign-in fails, and a
      sign-in starts, only on a thread that is not at work. */
  ghost predicate Considerate(c: Core, e: Event) {
    match e
    case SignIn(id) => AtRest(c, id)
    case SignedIn(job, ok) => job < |c.jobs| && c.jobs[job].SignInJob? && !ok ==> AtRest(c, c.jobs[job].thread)
    case SessionOpened(id, task, opening, _) =>
      First(c.threads, ById(id)).Some? ==>
        var i := First(c.threads, ById(id)).value;
        task in c.threads[i].tasks ==>
          if opening.Opened? then FreshSession(c, i, opening.session) else !c.threads[i].status.Running?
    case _ => true
  }

  /** Connections give prompts new ids, and end only prompts under way. */
  ghost predicate Timely(c: Core, e: Event) {
    match e
    case Send(id, _, wire) =>
      First(c.threads, ById(id)).Some? ==> NewWires(c, c.threads[First(c.threads, ById(id)).value].agent, wire)
    case SessionOpened(id, task, _, wire) =>
      First(c.threads, ById(id)).Some? ==> NewWires(c, c.threads[First(c.threads, ById(id)).value].agent, wire)
    case Call(agent, TurnEndedCall(session, id, _), wire) =>
      && Connection(c, agent).Some? && Flight(Connection(c, agent).value, id, session) in c.flights
      && NewWires(c, agent, wire)
    case _ => true
  }

  ghost predicate OrderlyEvent(c: Core, e: Event) { Considerate(c, e) && Timely(c, e) }

  function TokenOf(call: ClientCall): Option<Token> {
    match call
    case PermissionCall(_, _, token) => Some(token)
    case TerminalCall(_, _, token) => Some(token)
    case ReadCall(_, _, token) => Some(token)
    case WriteCall(_, _, _, _, token) => Some(token)
    case ElicitationCall(_, _, token) => Some(token)
    case _ => None
  }

  /** Connections have numbers of their own, and the calls of an agent come over its connection;
      a write that was still being looked up may come after the connection is gone. */
  ghost predicate ProperEvent(c: Core, e: Event) {
    match e
    case AgentStarted(_, _, Some(conn)) =>
      && (forall a :: a in c.slots ==> c.slots[a] != Ready(conn))
      && (forall f :: f in c.flights ==> f.conn != conn)
    case Call(agent, call, _) =>
      TokenOf(call).Some? ==> Brings(c, agent, TokenOf(call).value) || (call.WriteCall? && Late(c, agent))
    case _ => true
  }

  /** When the search for a program ends, a thread still wants the agent it was for, or it starts none. */
  predicate UsedEvent(c: Core, e: Event) {
    match e
    case LookedUp(found) => !StartsUnused(c, found)
    case _ => true
  }

  /** The search was for an agent that is found now, does not run, and has lost its last thread. */
  predicate StartsUnused(c: Core, found: set<string>) {
    && c.lookup.Looking? && c.lookup.agent.Some?
    && var agent := c.lookup.agent.value;
       agent !in c.slots && agent in c.agents && agent in found && First(c.threads, AnyOf(agent)).None?
  }

  /** No thread starts, no search for programs begins or ends, no agent gets its connection, and no
      sign-in ends. */
  predicate StillEvent(c: Core, e: Event) {
    match e
    case Send(id, prompt, _) => !Restarting(c, id, prompt)
    case _ =>
      && !e.StartThread? && !e.Retry? && !e.SignIn? && !e.SignedIn? && !e.SettingsChanged? && !e.RefreshAgents?
      && !e.LookedUp? && !e.AgentStarted?
  }

  /** A prompt for a thread that failed or ended starts it again. */
  predicate Restarting(c: Core, id: nat, prompt: Prompt) {
    && First(c.threads, ById(id)).Some? && !Empty(prompt)
    && var t := c.threads[First(c.threads, ById(id)).value]; t.status.Failed? || t.status.Ended? || t.status.NotInstalled?
  }

  ghost predicate Fine(c: Core, e: Event, care: Care) {
    && (care.orderly ==> OrderlyEvent(c, e)) && (care.proper ==> ProperEvent(c, e))
    && (care.used ==> UsedEvent(c, e)) && (care.still ==> StillEvent(c, e))
  }

  // ----- Opening sessions -----

  lemma {:induction false} OpenFromMoves(c: Core, agent: string, i: nat, care: Care) returns (ms: seq<Move>)
    requires !care.still
    requires Connection(c, agent).Some?
    ensures Chain(c, ms, OpenFrom(c, agent, i), care)
    decreases |c.threads| - i
  {
    hide Chain;
    if i >= |c.threads| {
      ms := Nothing(c, care);
    } else if Waiting(c.threads[i], agent) {
      var d := Do(c, Mark(i, Starting));
      var e := Do(d, Move.Open(i));
      var rest := OpenFromMoves(e, agent, i + 1, care);
      Then(d, Move.Open(i), rest, OpenFrom(c, agent, i), care);
      Then(c, Mark(i, Starting), [Move.Open(i)] + rest, OpenFrom(c, agent, i), care);
      ms := [Mark(i, Starting)] + ([Move.Open(i)] + rest);
    } else {
      ms := OpenFromMoves(c, agent, i + 1, care);
    }
  }

  lemma Nothing(c: Core, care: Care) returns (ms: seq<Move>)
    ensures Chain(c, ms, c, care)
  {
    ms := [];
  }

  lemma Single(c: Core, m: Move, d: Core, care: Care) returns (ms: seq<Move>)
    requires Good(c, m, care) && Do(c, m) == d
    ensures Chain(c, ms, d, care)
  {
    hide Do, Good;
    ms := [m];
  }

  lemma EnsureMoves(c: Core, agent: string, care: Care) returns (ms: seq<Move>)
    requires !care.still
    requires care.used && agent !in c.slots && agent in c.agents && c.agents[agent].program ==> First(c.threads, AnyOf(agent)).Some?
    ensures Chain(c, ms, EnsureAgent(c, agent), care)
  {
    hide Chain;
    if agent in c.slots {
      if c.slots[agent].Ready? {
        ms := OpenFromMoves(c, agent, 0, care);
      } else {
        ms := Nothing(c, care);
      }
    } else if agent in c.agents && c.agents[agent].program {
      ms := Single(c, Begin(agent), EnsureAgent(c, agent), care);
    } else if agent in c.agents && !c.agents[agent].checked {
      ms := Single(c, Aside(EnsureAgent(c, agent)), EnsureAgent(c, agent), care);
    } else {
      ms := Single(c, NoProgram(agent), EnsureAgent(c, agent), care);
    }
  }

  /** A thread of the agent is found. */
  lemma SomeThread(c: Core, i: nat)
    requires i < |c.threads|
    ensures First(c.threads, AnyOf(c.threads[i].agent)).Some?
  {
    FirstIsFirst(c.threads, AnyOf(c.threads[i].agent));
    assert Fits(c.threads[i], AnyOf(c.threads[i].agent));
  }

  lemma LookedUpMoves(c: Core, found: set<string>, care: Care) returns (ms: seq<Move>)
    requires !care.still
    requires care.used ==> UsedEvent(c, LookedUp(found))
    ensures Chain(c, ms, LookedUpStep(c, found), care)
  {
    hide Chain, EnsureAgent;
    match c.lookup
    case NoLookup => ms := Nothing(c, care);
    case Looking(agent) =>
      var d := c.(lookup := NoLookup, agents := map a | a in c.agents :: Info(a in found, true));
      if agent.Some? {
        var rest := EnsureMoves(d, agent.value, care);
        Then(c, Aside(d), rest, LookedUpStep(c, found), care);
        ms := [Aside(d)] + rest;
      } else {
        ms := Single(c, Aside(d), d, care);
      }
  }

  lemma AgentStartedMoves(c: Core, agent: string, task: nat, conn: Option<nat>, care: Care) returns (ms: seq<Move>)
    requires Fine(c, AgentStarted(agent, task, conn), care)
    ensures Chain(c, ms, AgentStartedStep(c, agent, task, conn), care)
  {
    hide Chain;
    if !(agent in c.slots && c.slots[agent] == StartingSlot(task)) {
      ms := Nothing(c, care);
    } else {
      match conn
      case Some(k) =>
        var d := Do(c, Attach(agent, k));
        var rest := OpenFromMoves(d, agent, 0, care);
        Then(c, Attach(agent, k), rest, AgentStartedStep(c, agent, task, conn), care);
        ms := [Attach(agent, k)] + rest;
      case None => ms := Single(c, Abort(agent), AgentStartedStep(c, agent, task, conn), care);
    }
  }

  // ----- Threads -----

  lemma StartThreadMoves(c: Core, agent: string, cluster: string, cwd: string, first: Option<Prompt>,
                         resume: Option<string>, care: Care) returns (ms: seq<Move>)
    requires !care.still
    ensures Chain(c, ms, StartThreadStep(c, agent, cluster, cwd, first, resume), care)
  {
    hide Chain, EnsureAgent;
    var m := Add(NewThread(c.nextThread + 1, agent, cluster, cwd, first, resume), first);
    SomeThread(Do(c, m), |c.threads|);
    var rest := EnsureMoves(Do(c, m), agent, care);
    Then(c, m, rest, StartThreadStep(c, agent, cluster, cwd, first, resume), care);
    ms := [m] + rest;
  }

  lemma RetryMoves(c: Core, id: nat, care: Care) returns (ms: seq<Move>)
    requires !care.still
    ensures Chain(c, ms, RetryStep(c, id), care)
  {
    hide Chain, EnsureAgent;
    match First(c.threads, ById(id))
    case None => ms := Nothing(c, care);
    case Some(i) =>
      if c.threads[i].session.Some? {
        ms := Nothing(c, care);
      } else {
        var m := Mark(i, Starting);
        SomeThread(Do(c, m), i);
        var rest := EnsureMoves(Do(c, m), c.threads[i].agent, care);
        Then(c, m, rest, RetryStep(c, id), care);
        ms := [m] + rest;
      }
  }

  lemma CloseMoves(c: Core, id: nat, care: Care) returns (ms: seq<Move>)
    ensures Chain(c, ms, CloseThreadStep(c, id), care)
  {
    hide Chain;
    match First(c.threads, ById(id))
    case None => ms := Nothing(c, care);
    case Some(i) =>
      var rest := Single(CancelAt(c, i), Remove(i), CloseThreadStep(c, id), care);
      Then(c, Withdraw(i), rest, CloseThreadStep(c, id), care);
      ms := [Withdraw(i)] + rest;
  }

  lemma SendMoves(c: Core, id: nat, prompt: Prompt, wire: Option<nat>, care: Care) returns (ms: seq<Move>)
    requires Ids(c) && Fine(c, Send(id, prompt, wire), care)
    ensures Chain(c, ms, SendStep(c, id, prompt, wire), care)
  {
    hide Chain, RetryStep, NextPrompt, Empty;
    match First(c.threads, ById(id))
    case None => ms := Nothing(c, care);
    case Some(i) =>
      if Empty(prompt) {
        ms := Nothing(c, care);
      } else {
        var m := Enqueue(i, prompt);
        var d, e := Do(c, m), SendStep(c, id, prompt, wire);
        var rest;
        if c.threads[i].status.Idle? {
          rest := NextMoves(d, id, i, wire, care);
        } else if c.threads[i].status.Failed? || c.threads[i].status.Ended? || c.threads[i].status.NotInstalled? {
          rest := RetryMoves(d, id, care);
        } else {
          rest := Nothing(d, care);
        }
        Then(c, m, rest, e, care);
        ms := [m] + rest;
      }
  }

  lemma SignInMoves(c: Core, id: nat, care: Care) returns (ms: seq<Move>)
    requires Fine(c, SignIn(id), care)
    ensures Chain(c, ms, SignInStep(c, id), care)
  {
    hide Chain, RetryStep;
    match First(c.threads, ById(id))
    case None => ms := Nothing(c, care);
    case Some(i) =>
      var m := Mark(i, Starting);
      var d := Do(c, m);
      var rest;
      if Connection(c, c.threads[i].agent).None? {
        rest := RetryMoves(d, id, care);
      } else {
        rest := Single(d, Aside(NewJob(d, SignInJob(id))), SignInStep(c, id), care);
      }
      Then(c, m, rest, SignInStep(c, id), care);
      ms := [m] + rest;
  }

  lemma SignedInMoves(c: Core, job: nat, ok: bool, care: Care) returns (ms: seq<Move>)
    requires Fine(c, SignedIn(job, ok), care)
    ensures Chain(c, ms, SignedInStep(c, job, ok), care)
  {
    hide Chain;
    if !(job < |c.jobs| && c.jobs[job].SignInJob?) {
      ms := Nothing(c, care);
    } else {
      var d := EndJob(c, job);
      var rest;
      match First(c.threads, ById(c.jobs[job].thread)) {
        case None => rest := Nothing(d, care);
        case Some(i) =>
          if ok {
            if Connection(d, d.threads[i].agent).Some? {
              rest := Single(d, Move.Open(i), OpenSession(d, i), care);
            } else {
              rest := Nothing(d, care);
            }
          } else {
            rest := Single(d, Mark(i, Failed), SetStatus(d, i, Failed), care);
          }
      }
      Then(c, Aside(d), rest, SignedInStep(c, job, ok), care);
      ms := [Aside(d)] + rest;
    }
  }

  // ----- Turns -----

  lemma {:induction false} NextMoves(c: Core, id: nat, i: nat, wire: Option<nat>, care: Care) returns (ms: seq<Move>)
    requires Ids(c) && i < |c.threads| && c.threads[i].id == id
    requires care.orderly ==> NewWires(c, c.threads[i].agent, wire)
    ensures Chain(c, ms, NextPrompt(c, id, wire), care)
    decreases |c.threads[i].queued|
  {
    hide Chain, NextPrompt, Do, Ids;
    if CanPrompt(c.threads[i]) && Connection(c, c.threads[i].agent).Some? && wire.None? {
      var m := HandFails(i, Connection(c, c.threads[i].agent).value);
      AfterFailure(c, i, m.conn);
      var rest := NextMoves(Do(c, m), id, i, wire, care);
      Then(c, m, rest, NextPrompt(c, id, wire), care);
      ms := [m] + rest;
    } else {
      ms := NextMove(c, id, i, wire, care);
    }
  }

  /** The next prompt is handed over, or there is none. */
  lemma NextMove(c: Core, id: nat, i: nat, wire: Option<nat>, care: Care) returns (ms: seq<Move>)
    requires Ids(c) && i < |c.threads| && c.threads[i].id == id
    requires !(CanPrompt(c.threads[i]) && Connection(c, c.threads[i].agent).Some? && wire.None?)
    requires care.orderly ==> NewWires(c, c.threads[i].agent, wire)
    ensures Chain(c, ms, NextPrompt(c, id, wire), care)
  {
    hide Chain, Ids, TurnEnded, Transcripts.Keeps, Transcripts.UniqueTools;
    OwnId(c, i);
    var t := c.threads[i];
    if !CanPrompt(t) {
      ms := Nothing(c, care);
    } else if Connection(c, t.agent).None? {
      ms := Single(c, Lose(i), NextPrompt(c, id, wire), care);
    } else {
      ms := Single(c, Hand(i, Connection(c, t.agent).value, wire.value), NextPrompt(c, id, wire), care);
    }
  }

  lemma AfterFailure(c: Core, i: nat, conn: nat)
    requires Ids(c) && Allowed(c, HandFails(i, conn))
    ensures var d := Do(c, HandFails(i, conn));
            && Ids(d) && |d.threads| == |c.threads| && d.threads[i].id == c.threads[i].id
            && d.threads[i].queued == c.threads[i].queued[1..]
            && NextPrompt(c, c.threads[i].id, None) == NextPrompt(d, c.threads[i].id, None)
  {
    hide Do, NextPrompt, Ids;
    FailureRests(c, i, conn);
    FailureEnds(c, i, conn);
  }

  lemma FailureRests(c: Core, i: nat, conn: nat)
    requires Ids(c) && Allowed(c, HandFails(i, conn))
    ensures var d := Do(c, HandFails(i, conn));
            && Ids(d) && |d.threads| == |c.threads| && d.threads[i].id == c.threads[i].id
            && d.threads[i].queued == c.threads[i].queued[1..]
  {
    hide Transcripts.Settled, CancelAll, TurnNotice;
  }

  lemma FailureEnds(c: Core, i: nat, conn: nat)
    requires Ids(c) && Allowed(c, HandFails(i, conn))
    ensures NextPrompt(c, c.threads[i].id, None) == NextPrompt(Do(c, HandFails(i, conn)), c.threads[i].id, None)
  {
    hide RestAt, Ids;
    var id := c.threads[i].id;
    OwnId(c, i);
    FirstAfterPut(c.threads, i, Busy(c.threads[i]), ById(id));
    var e := HandOver(c, i, conn, None);
    assert First(e.threads, ById(id)) == Some(i);
    assert TurnEnded(e, id, ClosedError(), None) == NextPrompt(RestAt(e, i, ClosedError()), id, None);
  }

  lemma OpensThere(c: Core, i: nat, task: nat, session: string)
    requires Ids(c) && Allowed(c, OpenAs(i, task, session))
    ensures var d := Do(c, OpenAs(i, task, session));
            && Ids(d) && |d.threads| == |c.threads| && d.threads[i].id == c.threads[i].id
            && d.threads[i].agent == c.threads[i].agent && d.slots == c.slots && d.flights == c.flights
            && d == Put(c, i, OpenedThread(c.threads[i].(tasks := c.threads[i].tasks - {task}), session))
  {
  }

  lemma OpenFailsMoves(c: Core, i: nat, task: nat, status: Status, care: Care) returns (ms: seq<Move>)
    requires i < |c.threads| && task in c.threads[i].tasks && (status.Failed? || status.NeedsSignIn?)
    requires care.orderly ==> !c.threads[i].status.Running?
    ensures Chain(c, ms, Put(c, i, c.threads[i].(tasks := c.threads[i].tasks - {task}, status := status)), care)
  {
    hide Chain;
    ms := Single(c, OpenFails(i, task, status), Put(c, i, c.threads[i].(tasks := c.threads[i].tasks - {task}, status := status)), care);
  }

  lemma SessionOpenedMoves(c: Core, id: nat, task: nat, opening: Opening, wire: Option<nat>, care: Care)
    returns (ms: seq<Move>)
    requires Ids(c) && Fine(c, SessionOpened(id, task, opening, wire), care)
    ensures Chain(c, ms, SessionOpenedStep(c, id, task, opening, wire), care)
  {
    hide Chain, NextPrompt, FreshSession, Do, Ids;
    match First(c.threads, ById(id))
    case None => ms := Nothing(c, care);
    case Some(i) =>
      if task !in c.threads[i].tasks {
        ms := Nothing(c, care);
      } else {
        match opening
        case Opened(session) =>
          var m := OpenAs(i, task, session);
          var d := Do(c, m);
          OpensThere(c, i, task, session);
          var rest := NextMoves(d, id, i, wire, care);
          Then(c, m, rest, SessionOpenedStep(c, id, task, opening, wire), care);
          ms := [m] + rest;
        case NeedsAuth => ms := OpenFailsMoves(c, i, task, NeedsSignIn, care);
        case OpeningFailed => ms := OpenFailsMoves(c, i, task, Failed, care);
      }
  }

  lemma TurnEndedMoves(c: Core, agent: string, session: string, id: nat, result: TurnResult, wire: Option<nat>, care: Care)
    returns (ms: seq<Move>)
    requires Ids(c) && Fine(c, Call(agent, TurnEndedCall(session, id, result), wire), care)
    ensures Chain(c, ms, TurnEndedStep(c, agent, session, id, result, wire), care)
  {
    hide Chain, TurnEndedStep, Fine, Ids;
    match First(c.threads, BySession(agent, session))
    case None =>
      LandsThere(c, agent, session, id, result, wire);
      ms := Single(c, Land(agent, session, id), TurnEndedStep(c, agent, session, id, result, wire), care);
    case Some(i) => ms := RestMoves(c, i, id, result, wire, care);
  }

  lemma RestMoves(c: Core, i: nat, id: nat, result: TurnResult, wire: Option<nat>, care: Care) returns (ms: seq<Move>)
    requires Ids(c) && Allowed(c, Rest(i, id, result))
    requires var t := c.threads[i]; Fine(c, Call(t.agent, TurnEndedCall(t.session.value, id, result), wire), care)
    ensures var t := c.threads[i]; Chain(c, ms, TurnEndedStep(c, t.agent, t.session.value, id, result, wire), care)
  {
    hide Chain, NextPrompt, TurnEndedStep, Do, Ids, NewWire;
    var t, m := c.threads[i], Rest(i, id, result);
    RestsThere(c, i, id, result, wire);
    assert care.orderly ==> NewWires(Do(c, m), t.agent, wire) by { SameWires(c, Do(c, m), t.agent, wire); }
    var rest := NextMoves(Do(c, m), t.id, i, wire, care);
    Then(c, m, rest, TurnEndedStep(c, t.agent, t.session.value, id, result, wire), care);
    ms := [m] + rest;
  }

  lemma SameWires(c: Core, d: Core, agent: string, wire: Option<nat>)
    requires d.slots == c.slots && d.flights.Keys <= c.flights.Keys
    ensures NewWires(c, agent, wire) ==> NewWires(d, agent, wire)
  {
  }

  lemma LandsThere(c: Core, agent: string, session: string, id: nat, result: TurnResult, wire: Option<nat>)
    requires First(c.threads, BySession(agent, session)).None?
    ensures TurnEndedStep(c, agent, session, id, result, wire) == ForgetFlight(c, agent, session, id)
    ensures Do(c, Land(agent, session, id)) == ForgetFlight(c, agent, session, id)
  {
  }

  lemma RestsThere(c: Core, i: nat, id: nat, result: TurnResult, wire: Option<nat>)
    requires Ids(c) && Allowed(c, Rest(i, id, result))
    ensures var t, d := c.threads[i], Do(c, Rest(i, id, result));
            && Ids(d) && |d.threads| == |c.threads| && d.threads[i].id == t.id
            && d.threads[i].agent == t.agent && d.slots == c.slots && d.flights.Keys <= c.flights.Keys
            && TurnEndedStep(c, t.agent, t.session.value, id, result, wire) == NextPrompt(d, t.id, wire)
  {
    hide Do, RestAt, Ids, NextPrompt, TurnEndedStep, ForgetFlight;
    RestIs(c, i, id, result);
    Forgets(c, c.threads[i].agent, c.threads[i].session.value, id);
    RestKeeps(ForgetFlight(c, c.threads[i].agent, c.threads[i].session.value, id), i, result);
    EndsTurn(c, i, id, result, wire);
  }

  lemma RestIs(c: Core, i: nat, id: nat, result: TurnResult)
    requires Allowed(c, Rest(i, id, result))
    ensures Do(c, Rest(i, id, result)) == RestAt(ForgetFlight(c, c.threads[i].agent, c.threads[i].session.value, id), i, result)
  {
  }

  lemma Forgets(c: Core, agent: string, session: string, id: nat)
    ensures var e := ForgetFlight(c, agent, session, id);
            && e.threads == c.threads && e.slots == c.slots && e.flights.Keys <= c.flights.Keys && (Ids(c) ==> Ids(e))
  {
  }

  lemma RestKeeps(c: Core, i: nat, result: TurnResult)
    requires Ids(c) && i < |c.threads|
    ensures var d := RestAt(c, i, result);
            && Ids(d) && |d.threads| == |c.threads| && d.threads[i].id == c.threads[i].id
            && d.threads[i].agent == c.threads[i].agent && d.slots == c.slots && d.flights == c.flights
  {
    hide Rested, CancelAll;
    SameRest(c.threads[i], result);
  }

  lemma SameRest(t: Thread, result: TurnResult)
    ensures Rested(t, result).id == t.id && Rested(t, result).agent == t.agent
  {
  }

  lemma EndsTurn(c: Core, i: nat, id: nat, result: TurnResult, wire: Option<nat>)
    requires Ids(c) && Allowed(c, Rest(i, id, result))
    ensures var t := c.threads[i];
            TurnEndedStep(c, t.agent, t.session.value, id, result, wire)
            == NextPrompt(RestAt(ForgetFlight(c, t.agent, t.session.value, id), i, result), t.id, wire)
  {
    hide RestAt, NextPrompt, Rested;
    var e := ForgetFlight(c, c.threads[i].agent, c.threads[i].session.value, id);
    assert e.threads == c.threads;
    OwnId(e, i);
  }

  // ----- Changes and calls -----

  lemma SetWritesMoves(c: Core, id: nat, enabled: bool, care: Care) returns (ms: seq<Move>)
    ensures Chain(c, ms, SetWritesStep(c, id, enabled), care)
  {
    hide Chain, Kept, SiftFacts;
    match First(c.threads, ById(id))
    case None => ms := Nothing(c, care);
    case Some(i) => ms := Single(c, Writes(i, enabled && c.allowWrites), SetWritesStep(c, id, enabled), care);
  }

  lemma SettingsMoves(c: Core, allow: bool, configured: set<string>, care: Care) returns (ms: seq<Move>)
    requires !care.still
    ensures Chain(c, ms, SettingsStep(c, allow, configured), care)
  {
    hide Chain, SweepAll;
    var d := Do(c, Settings(allow));
    var rest := Single(d, Aside(SettingsStep(c, allow, configured)), SettingsStep(c, allow, configured), care);
    Then(c, Settings(allow), rest, SettingsStep(c, allow, configured), care);
    ms := [Settings(allow)] + rest;
  }

  lemma NoticeMoves(c: Core, id: nat, text: string, error: bool, care: Care) returns (ms: seq<Move>)
    ensures Chain(c, ms, NoticeStep(c, id, text, error), care)
  {
    hide Chain;
    match First(c.threads, ById(id))
    case None => ms := Nothing(c, care);
    case Some(i) =>
      var es := c.threads[i].entries;
      assert forall k :: 0 <= k < |es| ==> Transcripts.SameEntry(es[k], es[k]);
      ms := Single(c, Edit(i, es + [Transcripts.Notice(text, error)]), NoticeStep(c, id, text, error), care);
  }

  lemma ChangeMoves(c: Core, id: nat, proposal: string, approval: nat, gaveUp: bool, care: Care) returns (ms: seq<Move>)
    ensures Chain(c, ms, ChangeRequestedStep(c, id, proposal, approval, gaveUp), care)
  {
    hide Chain;
    var e := ChangeRequestedStep(c, id, proposal, approval, gaveUp);
    var i := First(c.threads, ById(id));
    if !gaveUp && i.Some? && c.threads[i.value].writes {
      ms := Single(c, PushCard(i.value, Change(proposal), None, None, Some(approval)), e, care);
    } else {
      ms := DropMoves(c, approval, !gaveUp, care);
    }
  }

  /** The change is dropped, before or after its card was given an id. */
  lemma DropMoves(c: Core, approval: nat, counted: bool, care: Care) returns (ms: seq<Move>)
    ensures var d := if counted then c.(nextPending := c.nextPending + 1) else c;
            Chain(c, ms, Log(d, [Forgotten(approval)]), care)
  {
    hide Chain;
    var say := Say([Forgotten(approval)]);
    if counted {
      var d := Do(c, Count);
      ms := Single(d, say, Log(d, [Forgotten(approval)]), care);
      Then(c, Count, ms, Log(d, [Forgotten(approval)]), care);
      ms := [Count] + ms;
    } else {
      ms := Single(c, say, Log(c, [Forgotten(approval)]), care);
    }
  }

  lemma ReplyMoves(c: Core, token: Token, reply: Reply, care: Care) returns (ms: seq<Move>)
    requires Plain(reply)
    ensures Chain(c, ms, Log(c, [Replied(token, reply)]), care)
  {
    hide Chain;
    ms := Single(c, Say([Replied(token, reply)]), Log(c, [Replied(token, reply)]), care);
  }

  lemma PushMoves(c: Core, i: nat, kind: PendingKind, token: Token, launch: Option<Launch>, care: Care)
    returns (ms: seq<Move>)
    requires Allowed(c, PushCard(i, kind, Some(token), launch, None))
    requires care.proper ==> Proper(c, PushCard(i, kind, Some(token), launch, None))
    ensures Chain(c, ms, Push(c, i, kind, Some(token), launch, None), care)
  {
    hide Chain;
    ms := Single(c, PushCard(i, kind, Some(token), launch, None), Push(c, i, kind, Some(token), launch, None), care);
  }

  lemma PermissionMoves(c: Core, agent: string, session: string, p: PermissionRequest, token: Token, care: Care)
    returns (ms: seq<Move>)
    requires care.proper ==> Brings(c, agent, token)
    ensures Chain(c, ms, PermissionStep(c, agent, session, p, token), care)
  {
    hide Chain, Kubyl, AllowOption, Choices, Transcripts.Find;
    match First(c.threads, BySession(agent, session))
    case None => ms := ReplyMoves(c, token, PermissionCancelled, care);
    case Some(i) =>
      var t := c.threads[i];
      if Kubyl(t, p) && AllowOption(p.options).Some? {
        ms := Single(c, Pass(i, p, token), PermissionStep(c, agent, session, p, token), care);
      } else {
        ms := PushMoves(c, i, PermissionKind(t, p), token, None, care);
      }
  }

  lemma TerminalMoves(c: Core, agent: string, session: string, r: TerminalRequest, token: Token, care: Care)
    returns (ms: seq<Move>)
    requires care.proper ==> Brings(c, agent, token)
    ensures Chain(c, ms, TerminalStep(c, agent, session, r, token), care)
  {
    hide Chain, CoveredBy, Warned, SafeEnv, Policy.Line, ShownEnv;
    match First(c.threads, BySession(agent, session))
    case None => ms := ReplyMoves(c, token, ThreadClosed, care);
    case Some(i) =>
      var t := c.threads[i];
      var launch := LaunchOf(t, r);
      if CoveredBy(t, r, c.now) {
        Granting(t, r, c.now);
        ms := Single(c, RunGranted(i, r, token), TerminalStep(c, agent, session, r, token), care);
      } else {
        ms := PushMoves(c, i, Command(Policy.Line(r.command, r.args), launch.cwd, ShownEnv(launch.env), Warned(r)), token, Some(launch), care);
      }
  }

  lemma Granting(t: Thread, r: TerminalRequest, now: nat)
    requires CoveredBy(t, r, now)
    ensures t.grant.Some?
  {
  }

  lemma AskMoves(c: Core, agent: string, session: string, kind: PendingKind, token: Token, care: Care)
    returns (ms: seq<Move>)
    requires !kind.Change? && !kind.Command?
    requires care.proper ==> Brings(c, agent, token) || Late(c, agent)
    ensures Chain(c, ms, AskStep(c, agent, session, kind, token), care)
  {
    hide Chain;
    match First(c.threads, BySession(agent, session))
    case None => ms := ReplyMoves(c, token, ThreadClosed, care);
    case Some(i) => ms := PushMoves(c, i, kind, token, None, care);
  }

  lemma ElicitationMoves(c: Core, agent: string, question: Option<Question>, of: Option<string>, token: Token, care: Care)
    returns (ms: seq<Move>)
    requires care.proper ==> Brings(c, agent, token)
    ensures Chain(c, ms, ElicitationStep(c, agent, question, of, token), care)
  {
    hide Chain;
    match question
    case None => ms := ReplyMoves(c, token, InvalidParams, care);
    case Some(q) =>
      match ElicitationThread(c, agent, of)
      case None => ms := ReplyMoves(c, token, FormCancelled, care);
      case Some(i) => ms := PushMoves(c, i, QuestionKind(q), token, None, care);
  }

  lemma UpdateMoves(c: Core, agent: string, session: string, u: Transcripts.Update, care: Care) returns (ms: seq<Move>)
    ensures Chain(c, ms, UpdateStep(c, agent, session, u), care)
  {
    hide Chain, Transcripts.Applied;
    var i := if First(c.threads, BySession(agent, session)).Some? then First(c.threads, BySession(agent, session))
      else First(c.threads, ByResume(agent, session));
    match i
    case None => ms := Nothing(c, care);
    case Some(i) =>
      Transcripts.AppliedKeeps(c.threads[i].entries, u);
      if Transcripts.UniqueTools(c.threads[i].entries) { Transcripts.AppliedKeepsUnique(c.threads[i].entries, u); }
      ms := Single(c, Edit(i, Transcripts.Applied(c.threads[i].entries, u)), UpdateStep(c, agent, session, u), care);
  }

  lemma CallMoves(c: Core, agent: string, call: ClientCall, wire: Option<nat>, care: Care) returns (ms: seq<Move>)
    requires Ids(c) && Fine(c, Call(agent, call, wire), care)
    ensures Chain(c, ms, CallStep(c, agent, call, wire), care)
  {
    hide Chain, UpdateStep, PermissionStep, TerminalStep, AskStep, ElicitationStep, SweepAll, TurnEndedStep;
    match call
    case UpdateCall(session, u) => ms := UpdateMoves(c, agent, session, u, care);
    case PermissionCall(session, p, token) => ms := PermissionMoves(c, agent, session, p, token, care);
    case TerminalCall(session, r, token) => ms := TerminalMoves(c, agent, session, r, token, care);
    case ReadCall(session, path, token) => ms := AskMoves(c, agent, session, Read(path), token, care);
    case WriteCall(session, path, before, content, token) =>
      ms := AskMoves(c, agent, session, Write(path, before, content), token, care);
    case ElicitationCall(question, of, token) => ms := ElicitationMoves(c, agent, question, of, token, care);
    case ElicitationComplete(id) => ms := Single(c, Sift(UrlDone(agent, id)), CallStep(c, agent, call, wire), care);
    case TurnEndedCall(session, id, result) => ms := TurnEndedMoves(c, agent, session, id, result, wire, care);
    case ClosedCall => ms := Single(c, Gone(agent), CallStep(c, agent, call, wire), care);
  }

  lemma AnswerMoves(c: Core, id: nat, card: nat, answer: Answer, care: Care) returns (ms: seq<Move>)
    ensures Chain(c, ms, AnswerStep(c, id, card, answer), care)
  {
    hide Chain, AnswerTaken, TakeCard;
    match First(c.threads, ById(id))
    case None => ms := Nothing(c, care);
    case Some(i) =>
      match CardAt(c.threads[i].pending, card)
      case None => ms := Nothing(c, care);
      case Some(j) => ms := Single(c, TakeAnswer(i, j, answer), AnswerStep(c, id, card, answer), care);
  }

  lemma JobDoneMoves(c: Core, job: nat, ok: bool, care: Care) returns (ms: seq<Move>)
    ensures Chain(c, ms, JobDoneStep(c, job, ok), care)
  {
    hide Chain;
    if job >= |c.jobs| || c.jobs[job].SignInJob? {
      ms := Nothing(c, care);
    } else {
      ms := Single(c, FinishJob(job, ok), JobDoneStep(c, job, ok), care);
    }
  }

  // ----- Any event -----

  /** The events that come from the user. */
  predicate FromUser(e: Event) {
    || e.StartThread? || e.Retry? || e.CloseThread? || e.Send? || e.Cancel? || e.SignIn? || e.SetWrites? || e.SettingsChanged?
    || e.AnswerCard?
  }

  lemma UserMoves(c: Core, e: Event, care: Care) returns (ms: seq<Move>)
    requires Ids(c) && Fine(c, e, care) && FromUser(e)
    ensures Chain(c, ms, Step(c, e), care)
  {
    hide Chain, StartThreadStep, RetryStep, CloseThreadStep, SendStep, CancelAt, SignInStep, SetWritesStep, SettingsStep,
         AnswerStep, OrderlyEvent, ProperEvent, Do;
    match e
    case StartThread(agent, cluster, cwd, first, resume) => ms := StartThreadMoves(c, agent, cluster, cwd, first, resume, care);
    case Retry(id) => ms := RetryMoves(c, id, care);
    case CloseThread(id) => ms := CloseMoves(c, id, care);
    case Send(id, prompt, wire) => ms := SendMoves(c, id, prompt, wire, care);
    case Cancel(id) => ms := CancelMoves(c, id, care);
    case SignIn(id) => ms := SignInMoves(c, id, care);
    case SetWrites(id, enabled) => ms := SetWritesMoves(c, id, enabled, care);
    case SettingsChanged(allow, configured) => ms := SettingsMoves(c, allow, configured, care);
    case AnswerCard(id, card, answer) => ms := AnswerMoves(c, id, card, answer, care);
  }

  lemma CancelMoves(c: Core, id: nat, care: Care) returns (ms: seq<Move>)
    ensures Chain(c, ms, CancelStep(c, id), care)
  {
    hide Chain, CancelAt;
    match First(c.threads, ById(id))
    case None => ms := Nothing(c, care);
    case Some(i) => ms := Single(c, Withdraw(i), CancelAt(c, i), care);
  }

  lemma StepMoves(c: Core, e: Event, care: Care) returns (ms: seq<Move>)
    requires Ids(c) && Fine(c, e, care)
    ensures Chain(c, ms, Step(c, e), care)
  {
    hide Chain, StartThreadStep, RetryStep, CloseThreadStep, SendStep, CancelStep, SignInStep, SetWritesStep, SettingsStep,
         AnswerStep, SignedInStep, SweepAll, ChangeRequestedStep, LookedUpStep, AgentStartedStep, SessionOpenedStep, CallStep,
         JobDoneStep, NoticeStep, OrderlyEvent, ProperEvent;
    if FromUser(e) {
      ms := UserMoves(c, e, care);
      return;
    }
    match e
    case SignedIn(job, ok) => ms := SignedInMoves(c, job, ok, care);
    case RefreshAgents => ms := Single(c, Aside(Step(c, e)), Step(c, e), care);
    case SetProgram(agent, installed) => ms := Single(c, Aside(Step(c, e)), Step(c, e), care);
    case AddNotice(id, text, error) => ms := NoticeMoves(c, id, text, error, care);
    case Prune(closed) => ms := Single(c, Sift(PruneChanges(closed)), Step(c, e), care);
    case ChangeRequested(id, proposal, approval, gaveUp) => ms := ChangeMoves(c, id, proposal, approval, gaveUp, care);
    case LookedUp(found) => ms := LookedUpMoves(c, found, care);
    case AgentStarted(agent, task, conn) => ms := AgentStartedMoves(c, agent, task, conn, care);
    case SessionOpened(id, task, opening, wire) => ms := SessionOpenedMoves(c, id, task, opening, wire, care);
    case Call(agent, call, wire) => ms := CallMoves(c, agent, call, wire, care);
    case JobDone(job, ok) => ms := JobDoneMoves(c, job, ok, care);
    case Tick(elapsed) => ms := Single(c, Aside(Step(c, e)), Step(c, e), care);
  }
}
