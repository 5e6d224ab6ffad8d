/** What an event does to prompts in flight and to slots: where the core and the connections meet. */
module Handing {
  import opened Wrappers
  import opened AgentTypes
  import opened AgentSteps
  import opened AgentMoves
  import opened AgentRuns
  import opened AgentSafety
  import Policy
  import Transcripts

  function WireOf(e: Event): Option<nat> {
    match e
    case Send(_, _, wire) => wire
    case SessionOpened(_, _, _, wire) => wire
    case Call(_, _, wire) => wire
    case _ => None
  }

  function WithWire(e: Event, wire: Option<nat>): Event {
    match e
    case Send(id, prompt, _) => Send(id, prompt, wire)
    case SessionOpened(id, task, opening, _) => SessionOpened(id, task, opening, wire)
    case Call(agent, call, _) => Call(agent, call, wire)
    case _ => e
  }

  /** The thread at `i`, if it can hand a prompt of `session` to its connection. */
  function Through(c: Core, i: nat, session: string): Option<(nat, string)>
    requires i < |c.threads|
  {
    match Connection(c, c.threads[i].agent) { case Some(conn) => Some((conn, session)) case None => None }
  }

  /** The connection and the session the event hands a prompt to, if it does. */
  function Hands(c: Core, e: Event): Option<(nat, string)> {
    match e
    case Send(id, prompt, _) =>
      (match First(c.threads, ById(id))
       case None => None
       case Some(i) =>
         var t := c.threads[i];
         if !Empty(prompt) && t.status.Idle? && t.session.Some? then Through(c, i, t.session.value) else None)
    case SessionOpened(id, task, Opened(session), _) =>
      (match First(c.threads, ById(id))
       case None => None
       case Some(i) =>
         var t := c.threads[i];
         if task in t.tasks && t.queued != [] then Through(c, i, session) else None)
    case Call(agent, TurnEndedCall(session, _, result), _) =>
      (match First(c.threads, BySession(agent, session))
       case None => None
       case Some(i) =>
         if !result.AuthRequired? && c.threads[i].queued != [] then Through(c, i, session) else None)
    case _ => None
  }

  function HandedFlight(hands: Option<(nat, string)>, wire: Option<nat>): set<Flight> {
    if hands.Some? && wire.Some? then {Flight(hands.value.0, wire.value, hands.value.1)} else {}
  }

  /** The prompts in flight without the one that ends with the event. */
  function Remaining(c: Core, e: Event): set<Flight> {
    match e
    case Call(agent, TurnEndedCall(session, id, _), _) => ForgetFlight(c, agent, session, id).flights.Keys
    case _ => c.flights.Keys
  }

  // ----- The next prompt -----

  function HandsNext(c: Core, i: nat): Option<(nat, string)>
    requires i < |c.threads|
  {
    if CanPrompt(c.threads[i]) then Through(c, i, c.threads[i].session.value) else None
  }

  lemma {:induction false} NextPromptLeaves(c: Core, i: nat, wire: Option<nat>)
    requires Ids(c) && i < |c.threads|
    ensures var d := NextPrompt(c, c.threads[i].id, wire);
            d.flights.Keys == c.flights.Keys + HandedFlight(HandsNext(c, i), wire) && d.slots == c.slots
    decreases |c.threads[i].queued|
  {
    hide Transcripts.Settled, CancelAll, TurnNotice, Ids, Do, RestAt;
    OwnId(c, i);
    var t := c.threads[i];
    if CanPrompt(t) && Connection(c, t.agent).Some? && wire.None? {
      var m := HandFails(i, Connection(c, t.agent).value);
      AfterFailure(c, i, m.conn);
      FailureKeeps(c, i, m.conn);
      NextPromptLeaves(Do(c, m), i, wire);
    }
  }

  lemma FailureKeeps(c: Core, i: nat, conn: nat)
    requires Allowed(c, HandFails(i, conn))
    ensures Do(c, HandFails(i, conn)).flights == c.flights && Do(c, HandFails(i, conn)).slots == c.slots
  {
    hide Transcripts.Settled, CancelAll, TurnNotice;
  }

  // ----- Flights and slots, function by function -----

  lemma SweepLeaves(c: Core, s: Sweep)
    ensures SweepAll(c, s).flights == c.flights && SweepAll(c, s).slots == c.slots
  {
  }

  lemma {:induction false} OpenFromLeaves(c: Core, agent: string, i: nat)
    ensures OpenFrom(c, agent, i).flights == c.flights && OpenFrom(c, agent, i).slots == c.slots
    decreases |c.threads| - i
  {
    hide Waiting;
    if i < |c.threads| {
      OpenSessionLeaves(SetStatus(c, i, Starting), i);
      OpenFromLeaves(OpenSession(SetStatus(c, i, Starting), i), agent, i + 1);
      OpenFromLeaves(c, agent, i + 1);
    }
  }

  lemma OpenSessionLeaves(c: Core, i: nat)
    requires i < |c.threads|
    ensures OpenSession(c, i).flights == c.flights && OpenSession(c, i).slots == c.slots
    ensures |OpenSession(c, i).threads| == |c.threads|
  {
  }

  /** The only new slot an event can bring besides a starting one is that of a started agent. */
  ghost predicate NoNewReady(c: Core, d: Core) {
    forall a :: a in d.slots && d.slots[a].Ready? ==> a in c.slots && c.slots[a] == d.slots[a]
  }

  lemma EnsureLeaves(c: Core, agent: string)
    ensures EnsureAgent(c, agent).flights == c.flights && NoNewReady(c, EnsureAgent(c, agent))
  {
    hide OpenFrom, SweepAll;
    OpenFromLeaves(c, agent, 0);
    SweepLeaves(c, Missing(agent));
  }

  lemma RetryLeaves(c: Core, id: nat)
    ensures RetryStep(c, id).flights == c.flights && NoNewReady(c, RetryStep(c, id))
  {
    hide EnsureAgent;
    var i := First(c.threads, ById(id));
    if i.Some? && c.threads[i.value].session.None? {
      EnsureLeaves(SetStatus(c, i.value, Starting), c.threads[i.value].agent);
    }
  }

  lemma StartThreadLeaves(c: Core, agent: string, cluster: string, cwd: string, first: Option<Prompt>, resume: Option<string>)
    ensures var d := StartThreadStep(c, agent, cluster, cwd, first, resume); d.flights == c.flights && NoNewReady(c, d)
  {
    hide EnsureAgent;
    var c1 := c.(nextThread := c.nextThread + 1, contexts := c.contexts + {cluster},
                 threads := c.threads + [NewThread(c.nextThread + 1, agent, cluster, cwd, first, resume)], pruner := true);
    EnsureLeaves(Log(c1, match first { case Some(p) => [Asked(c.nextThread + 1, p)] case None => [] }), agent);
  }

  lemma LookedUpLeaves(c: Core, found: set<string>)
    ensures LookedUpStep(c, found).flights == c.flights && NoNewReady(c, LookedUpStep(c, found))
  {
    hide EnsureAgent;
    if c.lookup.Looking? && c.lookup.agent.Some? {
      EnsureLeaves(c.(lookup := NoLookup, agents := map a | a in c.agents :: Info(a in found, true)), c.lookup.agent.value);
    }
  }

  lemma CloseLeaves(c: Core, id: nat)
    ensures CloseThreadStep(c, id).flights == c.flights && NoNewReady(c, CloseThreadStep(c, id))
  {
    hide CancelAll, WithdrawAll;
  }

  lemma SendLeaves(c: Core, id: nat, prompt: Prompt, wire: Option<nat>)
    requires Ids(c)
    ensures var d := SendStep(c, id, prompt, wire);
            d.flights.Keys == c.flights.Keys + HandedFlight(Hands(c, Send(id, prompt, wire)), wire) && NoNewReady(c, d)
  {
    hide NextPrompt, RetryStep, Empty;
    var i := First(c.threads, ById(id));
    if i.Some? && !Empty(prompt) {
      var m := Enqueue(i.value, prompt);
      var d := Do(c, m);
      if c.threads[i.value].status.Idle? {
        NextPromptLeaves(d, i.value, wire);
      } else {
        RetryLeaves(d, id);
      }
    }
  }

  lemma SignInLeaves(c: Core, id: nat)
    ensures SignInStep(c, id).flights == c.flights && NoNewReady(c, SignInStep(c, id))
  {
    hide RetryStep;
    var i := First(c.threads, ById(id));
    if i.Some? {
      RetryLeaves(SetStatus(c, i.value, Starting), id);
    }
  }

  lemma SignedInLeaves(c: Core, job: nat, ok: bool)
    ensures SignedInStep(c, job, ok).flights == c.flights && NoNewReady(c, SignedInStep(c, job, ok))
  {
    hide OpenSession;
    if job < |c.jobs| && c.jobs[job].SignInJob? {
      var d := EndJob(c, job);
      var i := First(d.threads, ById(c.jobs[job].thread));
      if i.Some? {
        OpenSessionLeaves(d, i.value);
      }
    }
  }

  lemma SessionOpenedLeaves(c: Core, id: nat, task: nat, opening: Opening, wire: Option<nat>)
    requires Ids(c)
    ensures var d := SessionOpenedStep(c, id, task, opening, wire);
            d.flights.Keys == c.flights.Keys + HandedFlight(Hands(c, SessionOpened(id, task, opening, wire)), wire) && NoNewReady(c, d)
  {
    hide NextPrompt, SessionOpenedStep, Ids;
    var i := First(c.threads, ById(id));
    if i.Some? && task in c.threads[i.value].tasks && opening.Opened? {
      OpensThere(c, i.value, task, opening.session);
      NextPromptLeaves(Do(c, OpenAs(i.value, task, opening.session)), i.value, wire);
      OpenedIs(c, i.value, id, task, opening.session, wire);
    } else {
      NotOpened(c, id, task, opening, wire);
    }
  }

  lemma OpenedIs(c: Core, i: nat, id: nat, task: nat, session: string, wire: Option<nat>)
    requires First(c.threads, ById(id)) == Some(i) && task in c.threads[i].tasks
    ensures SessionOpenedStep(c, id, task, Opened(session), wire) == NextPrompt(Do(c, OpenAs(i, task, session)), id, wire)
    ensures HandsNext(Do(c, OpenAs(i, task, session)), i) == Hands(c, SessionOpened(id, task, Opened(session), wire))
  {
    hide NextPrompt;
  }

  lemma NotOpened(c: Core, id: nat, task: nat, opening: Opening, wire: Option<nat>)
    requires First(c.threads, ById(id)).None? || task !in c.threads[First(c.threads, ById(id)).value].tasks || !opening.Opened?
    ensures var d := SessionOpenedStep(c, id, task, opening, wire); d.flights == c.flights && d.slots == c.slots
    ensures Hands(c, SessionOpened(id, task, opening, wire)) == None
  {
  }

  lemma TurnEndedLeaves(c: Core, agent: string, session: string, id: nat, result: TurnResult, wire: Option<nat>)
    requires Ids(c)
    ensures var d, e := TurnEndedStep(c, agent, session, id, result, wire), Call(agent, TurnEndedCall(session, id, result), wire);
            d.flights.Keys == Remaining(c, e) + HandedFlight(Hands(c, e), wire) && d.slots == c.slots
  {
    hide TurnEndedStep, ForgetFlight, HandedFlight, Ids;
    match First(c.threads, BySession(agent, session))
    case None =>
      NoFlight(wire);
      LandsThere(c, agent, session, id, result, wire);
      ForgetSlots(c, agent, session, id);
    case Some(i) => RestHandsOn(c, i, id, result, wire);
  }

  lemma RestHandsOn(c: Core, i: nat, id: nat, result: TurnResult, wire: Option<nat>)
    requires Ids(c) && Allowed(c, Rest(i, id, result))
    ensures var t := c.threads[i];
            var d := TurnEndedStep(c, t.agent, t.session.value, id, result, wire);
            var e := Call(t.agent, TurnEndedCall(t.session.value, id, result), wire);
            d.flights.Keys == Remaining(c, e) + HandedFlight(Hands(c, e), wire) && d.slots == c.slots
  {
    hide NextPrompt, TurnEndedStep, ForgetFlight, HandedFlight, HandsNext, Through, Rested, Ids, Do;
    var d := Do(c, Rest(i, id, result));
    RestsThere(c, i, id, result, wire);
    RestLeaves(c, i, id, result);
    NextPromptLeaves(d, i, wire);
    RestHands(c, d, i, result);
  }

  lemma ForgetSlots(c: Core, agent: string, session: string, id: nat)
    ensures ForgetFlight(c, agent, session, id).slots == c.slots
  {
  }

  /** After the rest the thread hands over its next prompt, unless the agent wants a sign-in. */
  lemma RestHands(c: Core, d: Core, i: nat, result: TurnResult)
    requires i < |c.threads| && i < |d.threads| && d.threads[i] == Rested(c.threads[i], result) && d.slots == c.slots
    requires c.threads[i].session.Some?
    ensures HandsNext(d, i) == if !result.AuthRequired? && c.threads[i].queued != [] then Through(c, i, c.threads[i].session.value) else None
  {
    hide Transcripts.Settled, TurnNotice;
  }

  lemma RestLeaves(c: Core, i: nat, id: nat, result: TurnResult)
    requires Allowed(c, Rest(i, id, result))
    ensures var t, d := c.threads[i], Do(c, Rest(i, id, result));
            && d.flights == ForgetFlight(c, t.agent, t.session.value, id).flights && d.slots == c.slots
            && d.threads[i] == Rested(t, result)
  {
    hide Transcripts.Settled, CancelAll, TurnNotice;
  }

  lemma AgentStartedLeaves(c: Core, agent: string, task: nat, conn: Option<nat>)
    ensures var d := AgentStartedStep(c, agent, task, conn);
            && d.flights == c.flights
            && forall a :: a in d.slots && d.slots[a].Ready? ==>
                 (a in c.slots && c.slots[a] == d.slots[a]) || (a == agent && conn == Some(d.slots[a].conn))
  {
    hide OpenFrom, SweepAll;
    if agent in c.slots && c.slots[agent] == StartingSlot(task) {
      match conn
      case Some(k) => OpenFromLeaves(c.(slots := c.slots[agent := Ready(k)]), agent, 0);
      case None => SweepLeaves(c.(slots := c.slots - {agent}), StartFailed(agent));
    }
  }

  lemma CallLeaves(c: Core, agent: string, call: ClientCall, wire: Option<nat>)
    requires Ids(c)
    ensures var d, e := CallStep(c, agent, call, wire), Call(agent, call, wire);
            d.flights.Keys == Remaining(c, e) + HandedFlight(Hands(c, e), wire) && NoNewReady(c, d)
    ensures call.ClosedCall? ==> agent !in CallStep(c, agent, call, wire).slots
  {
    hide TurnEndedStep, HandedFlight, Hands, CallStep;
    if call.TurnEndedCall? {
      TurnEndedLeaves(c, agent, call.session, call.id, call.result, wire);
      TurnEndedIs(c, agent, call, wire);
    } else {
      NoFlight(wire);
      NoHands(c, agent, call, wire);
      QuietCall(c, agent, call, wire);
    }
  }

  lemma TurnEndedIs(c: Core, agent: string, call: ClientCall, wire: Option<nat>)
    requires call.TurnEndedCall?
    ensures CallStep(c, agent, call, wire) == TurnEndedStep(c, agent, call.session, call.id, call.result, wire)
  {
  }

  lemma QuietCall(c: Core, agent: string, call: ClientCall, wire: Option<nat>)
    requires !call.TurnEndedCall?
    ensures var d := CallStep(c, agent, call, wire);
            d.flights == c.flights && d.slots == if call.ClosedCall? then c.slots - {agent} else c.slots
  {
    hide SweepAll, PermissionStep, TerminalStep, AskStep, ElicitationStep, UpdateStep;
    match call
    case UpdateCall(session, u) => UpdateLeaves(c, agent, session, u);
    case PermissionCall(session, p, token) => AskedLeaves(c, agent, session, p, token);
    case TerminalCall(session, r, token) => TerminalLeaves(c, agent, session, r, token);
    case ReadCall(session, path, token) => AskLeaves(c, agent, session, Read(path), token);
    case WriteCall(session, path, before, content, token) => AskLeaves(c, agent, session, Write(path, before, content), token);
    case ElicitationCall(question, of, token) => ElicitationLeaves(c, agent, question, of, token);
    case ElicitationComplete(id) => SweepLeaves(c, UrlDone(agent, id));
    case ClosedCall => SweepLeaves(c.(slots := c.slots - {agent}), AgentGone(agent));
  }

  lemma UpdateLeaves(c: Core, agent: string, session: string, u: Transcripts.Update)
    ensures UpdateStep(c, agent, session, u).flights == c.flights && UpdateStep(c, agent, session, u).slots == c.slots
  {
    hide Transcripts.Applied;
  }

  lemma AskedLeaves(c: Core, agent: string, session: string, p: PermissionRequest, token: Token)
    ensures var d := PermissionStep(c, agent, session, p, token); d.flights == c.flights && d.slots == c.slots
  {
    hide Kubyl, AllowOption, PermissionKind;
  }

  lemma TerminalLeaves(c: Core, agent: string, session: string, r: TerminalRequest, token: Token)
    ensures var d := TerminalStep(c, agent, session, r, token); d.flights == c.flights && d.slots == c.slots
  {
    hide Policy.Covers, Warned, LaunchOf, ShownEnv, RunCommand, Push;
    var i := First(c.threads, BySession(agent, session));
    if i.Some? {
      var t := c.threads[i.value];
      var launch := LaunchOf(t, r);
      if CoveredBy(t, r, c.now) {
        RunLeaves(Put(c, i.value, t.(grant := None)), t.id, agent, launch, token, t.grant.value.card, true, Warned(r));
      } else {
        PushLeaves(c, i.value, Command(Policy.Line(r.command, r.args), launch.cwd, ShownEnv(launch.env), Warned(r)),
                   Some(token), Some(launch), None);
      }
    }
  }

  lemma PushLeaves(c: Core, i: nat, kind: PendingKind, responder: Option<Token>, launch: Option<Launch>, approval: Option<nat>)
    requires i < |c.threads|
    ensures var d := Push(c, i, kind, responder, launch, approval); d.flights == c.flights && d.slots == c.slots
  {
  }

  lemma AskLeaves(c: Core, agent: string, session: string, kind: PendingKind, token: Token)
    ensures var d := AskStep(c, agent, session, kind, token); d.flights == c.flights && d.slots == c.slots
  {
    hide Push;
    var i := First(c.threads, BySession(agent, session));
    if i.Some? { PushLeaves(c, i.value, kind, Some(token), None, None); }
  }

  lemma ElicitationLeaves(c: Core, agent: string, question: Option<Question>, of: Option<string>, token: Token)
    ensures var d := ElicitationStep(c, agent, question, of, token); d.flights == c.flights && d.slots == c.slots
  {
    hide ElicitationThread, QuestionKind;
  }

  lemma NoFlight(wire: Option<nat>)
    ensures HandedFlight(None, wire) == {}
  {
  }

  lemma NoHands(c: Core, agent: string, call: ClientCall, wire: Option<nat>)
    requires !call.TurnEndedCall?
    ensures Hands(c, Call(agent, call, wire)) == None && Remaining(c, Call(agent, call, wire)) == c.flights.Keys
  {
  }

  lemma NoOtherHands(c: Core, e: Event)
    requires !e.Send? && !e.SessionOpened? && !e.Call?
    ensures Hands(c, e) == None && Remaining(c, e) == c.flights.Keys
  {
  }

  /** What any event does to prompts in flight: one may end, and one may be handed over. */
  lemma StepFlights(c: Core, e: Event)
    requires Ids(c)
    ensures Step(c, e).flights.Keys == Remaining(c, e) + HandedFlight(Hands(c, e), WireOf(e))
    ensures !e.AgentStarted? ==> NoNewReady(c, Step(c, e))
  {
    hide StartThreadStep, RetryStep, CloseThreadStep, SendStep, SignInStep, SignedInStep, SessionOpenedStep, CallStep,
         LookedUpStep, AgentStartedStep, SweepAll, Hands, Remaining, HandedFlight, CancelAt, AnswerStep, SetWritesStep,
         SettingsStep, ChangeRequestedStep, JobDoneStep;
    NoFlight(WireOf(e));
    match e
    case Send(id, prompt, wire) => SendLeaves(c, id, prompt, wire); StillFlying(c, e);
    case SessionOpened(id, task, opening, wire) => SessionOpenedLeaves(c, id, task, opening, wire); StillFlying(c, e);
    case Call(agent, call, wire) => CallLeaves(c, agent, call, wire);
    case _ =>
      NoOtherHands(c, e);
      QuietStep(c, e);
  }

  lemma StillFlying(c: Core, e: Event)
    requires e.Send? || e.SessionOpened?
    ensures Remaining(c, e) == c.flights.Keys
  {
  }

  lemma QuietStep(c: Core, e: Event)
    requires !e.Send? && !e.SessionOpened? && !e.Call?
    ensures Step(c, e).flights == c.flights
    ensures !e.AgentStarted? ==> NoNewReady(c, Step(c, e))
  {
    hide StartThreadStep, RetryStep, CloseThreadStep, SignInStep, SignedInStep, LookedUpStep, AgentStartedStep, SweepAll,
         AnswerStep, SetWritesStep, SettingsStep, ChangeRequestedStep, JobDoneStep, CancelStep, NoticeStep;
    match e
    case StartThread(agent, cluster, cwd, first, resume) => StartThreadLeaves(c, agent, cluster, cwd, first, resume);
    case Retry(id) => RetryLeaves(c, id);
    case CloseThread(id) => CloseLeaves(c, id);
    case Cancel(id) => CancelLeaves(c, id);
    case SignIn(id) => SignInLeaves(c, id);
    case SignedIn(job, ok) => SignedInLeaves(c, job, ok);
    case SetWrites(id, enabled) => SwitchLeaves(c, id, enabled);
    case SettingsChanged(allow, configured) => SettingsLeaves(c, allow, configured);
    case RefreshAgents =>
    case SetProgram(agent, installed) =>
    case AddNotice(id, text, error) => NoticeLeaves(c, id, text, error);
    case Prune(closed) => SweepLeaves(c, PruneChanges(closed));
    case ChangeRequested(id, proposal, approval, gaveUp) => ChangeLeaves(c, id, proposal, approval, gaveUp);
    case LookedUp(found) => LookedUpLeaves(c, found);
    case AgentStarted(agent, task, conn) => AgentStartedLeaves(c, agent, task, conn);
    case AnswerCard(id, card, answer) => AnswerLeaves(c, id, card, answer);
    case JobDone(job, ok) => JobLeaves(c, job, ok);
    case Tick(elapsed) =>
  }

  lemma NoticeLeaves(c: Core, id: nat, text: string, error: bool)
    ensures NoticeStep(c, id, text, error).flights == c.flights && NoNewReady(c, NoticeStep(c, id, text, error))
  {
  }

  lemma CancelLeaves(c: Core, id: nat)
    ensures CancelStep(c, id).flights == c.flights && NoNewReady(c, CancelStep(c, id))
  {
    hide CancelAll, WithdrawAll;
  }

  lemma SwitchLeaves(c: Core, id: nat, enabled: bool)
    ensures SetWritesStep(c, id, enabled).flights == c.flights && NoNewReady(c, SetWritesStep(c, id, enabled))
  {
    hide Kept, SiftFacts;
  }

  lemma SettingsLeaves(c: Core, allow: bool, configured: set<string>)
    ensures SettingsStep(c, allow, configured).flights == c.flights && NoNewReady(c, SettingsStep(c, allow, configured))
  {
    hide SweepAll;
    SweepLeaves(c, RevokeWrites);
  }

  lemma ChangeLeaves(c: Core, id: nat, proposal: string, approval: nat, gaveUp: bool)
    ensures var d := ChangeRequestedStep(c, id, proposal, approval, gaveUp); d.flights == c.flights && NoNewReady(c, d)
  {
  }

  lemma AnswerLeaves(c: Core, id: nat, card: nat, answer: Answer)
    ensures AnswerStep(c, id, card, answer).flights == c.flights && NoNewReady(c, AnswerStep(c, id, card, answer))
  {
    hide AnswerTaken, TakeCard;
    var i := First(c.threads, ById(id));
    if i.Some? {
      var j := CardAt(c.threads[i.value].pending, card);
      if j.Some? {
        TakeLeaves(c, i.value, j.value);
        TakenLeaves(TakeCard(c, i.value, j.value), id, i.value, c.threads[i.value].pending[j.value], answer);
      }
    }
  }

  lemma TakeLeaves(c: Core, i: nat, j: nat)
    requires i < |c.threads| && j < |c.threads[i].pending|
    ensures var d := TakeCard(c, i, j); d.flights == c.flights && d.slots == c.slots && |d.threads| == |c.threads|
  {
  }

  lemma TakenLeaves(c: Core, id: nat, i: nat, item: Pending, answer: Answer)
    requires i < |c.threads|
    ensures var d := AnswerTaken(c, id, i, item, answer);
            d.flights == c.flights && d.slots == c.slots && d.lookup == c.lookup && c.jobs <= d.jobs
  {
    hide ForgetFacts, DropResponder, AnswerItem;
    if !item.kind.Change? && item.responder.Some? {
      ItemLeaves(Log(Log(c, [Chosen(id, item, answer, c.allowWrites && c.threads[i].writes)]), ForgetFacts(item)), i, item,
                 item.responder.value, answer);
    }
  }

  lemma ItemLeaves(c: Core, i: nat, item: Pending, token: Token, answer: Answer)
    requires i < |c.threads|
    ensures var d := AnswerItem(c, i, item, token, answer);
            d.flights == c.flights && d.slots == c.slots && d.lookup == c.lookup && c.jobs <= d.jobs
  {
    hide AnswerPermission, RunCommand, Yes;
    match item.kind
    case Permission(_, _, _, _, _) => PermissionLeaves(c, i, item, token, answer);
    case Command(_, _, _, warned) =>
      if item.launch.Some? {
        RunLeaves(c, c.threads[i].id, c.threads[i].agent, item.launch.value, token, item.id, false, warned);
      }
    case _ => OtherLeaves(c, i, item, token, answer);
  }

  lemma OtherLeaves(c: Core, i: nat, item: Pending, token: Token, answer: Answer)
    requires i < |c.threads| && !item.kind.Permission? && !item.kind.Command?
    ensures var d := AnswerItem(c, i, item, token, answer);
            d.flights == c.flights && d.slots == c.slots && d.lookup == c.lookup && c.jobs <= d.jobs
  {
    hide Yes;
  }

  lemma PermissionLeaves(c: Core, i: nat, item: Pending, token: Token, answer: Answer)
    requires i < |c.threads| && item.kind.Permission?
    ensures var d := AnswerPermission(c, i, item, token, answer);
            d.flights == c.flights && d.slots == c.slots && d.lookup == c.lookup && c.jobs <= d.jobs
  {
    hide ChoiceOf;
  }

  lemma RunLeaves(c: Core, thread: nat, agent: string, launch: Launch, token: Token, card: nat, byGrant: bool, warned: bool)
    ensures var d := RunCommand(c, thread, agent, launch, token, card, byGrant, warned);
            d.flights == c.flights && d.slots == c.slots && d.lookup == c.lookup && c.jobs <= d.jobs
  {
  }

  lemma JobLeaves(c: Core, job: nat, ok: bool)
    ensures JobDoneStep(c, job, ok).flights == c.flights && NoNewReady(c, JobDoneStep(c, job, ok))
  {
  }
}
