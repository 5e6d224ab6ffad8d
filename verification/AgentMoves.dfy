/** Every event is a chain of small moves; the invariants are proved move by move. */
module AgentMoves {
  import opened Wrappers
  import opened AgentTypes
  import opened AgentSteps
  import Transcripts

  datatype Move =
    | Aside(next: Core)
    | Say(facts: seq<Fact>)
    | Pass(i: nat, permission: PermissionRequest, token: Token)
    | FinishJob(job: nat, ok: bool)
    | Add(thread: Thread, first: Option<Prompt>)
    | Remove(i: nat)
    | Enqueue(i: nat, prompt: Prompt)
    | Edit(i: nat, entries: seq<Transcripts.Entry>)
    | Open(i: nat)
    | Mark(i: nat, status: Status)
    | Begin(agent: string)
    | Attach(agent: string, conn: nat)
    | Abort(agent: string)
    | NoProgram(agent: string)
    | Gone(agent: string)
    | Withdraw(i: nat)
    | Hand(i: nat, conn: nat, id: nat)
    | HandFails(i: nat, conn: nat)
    | Lose(i: nat)
    | Rest(i: nat, id: nat, result: TurnResult)
    | Land(agent: string, session: string, id: nat)
    | OpenAs(i: nat, task: nat, session: string)
    | OpenFails(i: nat, task: nat, status: Status)
    | Writes(i: nat, on: bool)
    | Settings(allow: bool)
    | Sift(sweep: Sweep)
    | PushCard(i: nat, kind: PendingKind, responder: Option<Token>, launch: Option<Launch>, approval: Option<nat>)
    | Count
    | RunGranted(i: nat, request: TerminalRequest, token: Token)
    | TakeAnswer(i: nat, j: nat, answer: Answer)

  /** Facts that only settle something. */
  predicate Settles(f: Fact) { f.Replied? || f.Forgotten? || f.Interrupted? || f.LetThrough? || f.PageDone? }

  /** Replies that stand for no decision. */
  predicate Plain(reply: Reply) {
    && !reply.Selected? && !reply.Accepted? && !reply.Declined? && !reply.UserDeclined?
    && !reply.TerminalCreated? && !reply.FileDone? && !reply.WorkFailed?
  }

  predicate Neutral(f: Fact) { (f.Replied? && Plain(f.reply)) || f.Forgotten? || f.Interrupted? }

  function ClosedError(): TurnResult { TurnFailed("The connection closed") }

  /** When a move can happen. */
  ghost predicate Allowed(c: Core, m: Move) {
    match m
    case Aside(d) =>
      && d == c.(lookup := d.lookup, agents := d.agents, jobs := d.jobs, nextTask := d.nextTask, now := d.now)
      && c.now <= d.now && c.nextTask <= d.nextTask
      && forall job :: job in d.jobs ==> job in c.jobs || job.SignInJob?
    case Say(facts) => forall i :: 0 <= i < |facts| ==> Neutral(facts[i])
    case Pass(i, p, _) => i < |c.threads| && Kubyl(c.threads[i], p) && AllowOption(p.options).Some?
    case FinishJob(job, _) => job < |c.jobs| && !c.jobs[job].SignInJob?
    case Add(t, first) => t == NewThread(c.nextThread + 1, t.agent, t.cluster, t.cwd, first, t.resume)
    case Remove(i) => i < |c.threads| && c.threads[i].pending == [] && c.threads[i].queued == []
    case Enqueue(i, _) => i < |c.threads|
    case Edit(i, es) =>
      && i < |c.threads| && Transcripts.Keeps(c.threads[i].entries, es)
      && (Transcripts.UniqueTools(c.threads[i].entries) ==> Transcripts.UniqueTools(es))
    case Open(i) => i < |c.threads| && Connection(c, c.threads[i].agent).Some?
    case Mark(i, status) => i < |c.threads| && (status.Starting? || status.Failed? || status.NeedsSignIn?)
    case Begin(agent) => agent !in c.slots
    case Attach(agent, conn) => agent in c.slots && c.slots[agent].StartingSlot?
    case Abort(agent) => agent in c.slots && c.slots[agent].StartingSlot?
    case NoProgram(agent) => agent !in c.slots
    case Gone(agent) => true
    case Withdraw(i) => i < |c.threads|
    case Hand(i, conn, _) => i < |c.threads| && CanPrompt(c.threads[i]) && Connection(c, c.threads[i].agent) == Some(conn)
    case HandFails(i, conn) => i < |c.threads| && CanPrompt(c.threads[i]) && Connection(c, c.threads[i].agent) == Some(conn)
    case Lose(i) => i < |c.threads| && CanPrompt(c.threads[i]) && Connection(c, c.threads[i].agent).None?
    case Rest(i, _, _) => i < |c.threads| && c.threads[i].session.Some?
                          && First(c.threads, BySession(c.threads[i].agent, c.threads[i].session.value)) == Some(i)
    case Land(agent, session, _) => First(c.threads, BySession(agent, session)).None?
    case OpenAs(i, task, _) => i < |c.threads| && task in c.threads[i].tasks
    case OpenFails(i, task, status) => i < |c.threads| && task in c.threads[i].tasks && (status.Failed? || status.NeedsSignIn?)
    case Writes(i, on) => i < |c.threads| && (on ==> c.allowWrites)
    case Settings(_) => true
    case Sift(sweep) => sweep.PruneChanges? || sweep.UrlDone?
    case PushCard(i, kind, responder, launch, approval) =>
      && i < |c.threads|
      && (kind.Change? <==> approval.Some?) && (kind.Change? ==> c.threads[i].writes)
      && (kind.Change? <==> responder.None?)
      && (kind.Command? <==> launch.Some?)
      && (kind.Command? ==> kind.line == Policy.Line(launch.value.command, launch.value.args) && kind.env == ShownEnv(launch.value.env))
    case Count => true
    case RunGranted(i, r, _) => i < |c.threads| && CoveredBy(c.threads[i], r, c.now)
    case TakeAnswer(i, j, _) => i < |c.threads| && j < |c.threads[i].pending|
  }

  function TurnOff(c: Core, i: nat): Core
    requires i < |c.threads|
  {
    var t := c.threads[i];
    Log(Put(c, i, t.(writes := false, pending := Kept(t.pending, NoChanges))), SiftFacts(t.pending, NoChanges))
  }

  function ForgetFlight(c: Core, agent: string, session: string, id: nat): Core {
    match Connection(c, agent)
    case Some(conn) => c.(flights := c.flights - {Flight(conn, id, session)})
    case None => c
  }

  ghost function Do(c: Core, m: Move): Core
    requires Allowed(c, m)
  {
    match m
    case Aside(d) => d
    case Say(facts) => Log(c, facts)
    case Pass(i, p, token) =>
      Log(c, [LetThrough(c.threads[i].id, p, KnownTitle(c.threads[i], p), token), Replied(token, Selected(AllowOption(p.options).value))])
    case FinishJob(job, ok) => JobDoneStep(c, job, ok)
    case Add(t, first) =>
      Log(c.(nextThread := c.nextThread + 1, contexts := c.contexts + {t.cluster}, threads := c.threads + [t], pruner := true),
          match first { case Some(p) => [Asked(t.id, p)] case None => [] })
    case Remove(i) => RemoveAt(c, i)
    case Enqueue(i, p) =>
      var t := c.threads[i];
      Log(Put(c, i, t.(entries := t.entries + [Transcripts.User(p.text, p.chips)], queued := t.queued + [p])), [Asked(t.id, p)])
    case Edit(i, es) => Put(c, i, c.threads[i].(entries := es))
    case Open(i) => OpenSession(c, i)
    case Mark(i, status) => SetStatus(c, i, status)
    case Begin(agent) => c.(slots := c.slots[agent := StartingSlot(c.nextTask)], nextTask := c.nextTask + 1)
    case Attach(agent, conn) => c.(slots := c.slots[agent := Ready(conn)])
    case Abort(agent) => SweepAll(c.(slots := c.slots - {agent}), StartFailed(agent))
    case NoProgram(agent) => SweepAll(c, Missing(agent))
    case Gone(agent) => ClosedStep(c, agent)
    case Withdraw(i) => CancelAt(c, i)
    case Hand(i, conn, id) => HandOver(c, i, conn, Some(id))
    case HandFails(i, conn) => RestAt(HandOver(c, i, conn, None), i, ClosedError())
    case Lose(i) => Log(Put(c, i, Busy(c.threads[i])), [Lost(c.threads[i].id, c.threads[i].queued[0])])
    case Rest(i, id, result) =>
      RestAt(ForgetFlight(c, c.threads[i].agent, c.threads[i].session.value, id), i, result)
    case Land(agent, session, id) => ForgetFlight(c, agent, session, id)
    case OpenAs(i, task, session) =>
      Put(c, i, OpenedThread(c.threads[i].(tasks := c.threads[i].tasks - {task}), session))
    case OpenFails(i, task, status) =>
      Put(c, i, c.threads[i].(tasks := c.threads[i].tasks - {task}, status := status))
    case Writes(i, on) => if on then Put(c, i, c.threads[i].(writes := true)) else TurnOff(c, i)
    case Settings(allow) => (if allow then c else SweepAll(c, RevokeWrites)).(allowWrites := allow)
    case Sift(sweep) => SweepAll(c, sweep)
    case PushCard(i, kind, responder, launch, approval) => Push(c, i, kind, responder, launch, approval)
    case Count => c.(nextPending := c.nextPending + 1)
    case RunGranted(i, r, token) =>
      var t := c.threads[i];
      RunCommand(Put(c, i, t.(grant := None)), t.id, t.agent, LaunchOf(t, r), token, t.grant.value.card, true, Warned(r))
    case TakeAnswer(i, j, answer) => AnswerTaken(TakeCard(c, i, j), c.threads[i].id, i, c.threads[i].pending[j], answer)
  }

  // ----- What the environment promises -----

  /** The agent hands out a session id that no other thread of it has; no prompt of that session is
      still in flight, and none of the thread that gets it. */
  ghost predicate FreshSession(c: Core, i: nat, session: string)
    requires i < |c.threads|
  {
    && (forall k :: 0 <= k < |c.threads| && k != i ==> !Fits(c.threads[k], BySession(c.threads[i].agent, session)))
    && (forall f :: f in c.flights && Connection(c, c.threads[i].agent) == Some(f.conn)
         ==> f.session != session && c.flights[f] != c.threads[i].id)
  }

  /** `start_prompt` gives every prompt of a connection its own id. */
  ghost predicate NewWire(c: Core, agent: string, id: nat) {
    forall f :: f in c.flights && Connection(c, agent) == Some(f.conn) ==> f.id != id
  }

  /** Moves that keep the turns of a thread apart: no session opens while a prompt of it is in
      flight, nothing re-marks or fails a thread at work, request ids are new, and a turn that ends
      was under way. */
  ghost predicate Orderly(c: Core, m: Move)
    requires Allowed(c, m)
  {
    match m
    case Mark(i, _) => c.threads[i].status.Running? ==> c.threads[i].session.None?
    case OpenFails(i, _, _) => !c.threads[i].status.Running?
    case OpenAs(i, _, session) => FreshSession(c, i, session)
    case Hand(i, _, id) => NewWire(c, c.threads[i].agent, id)
    case Rest(i, id, _) =>
      && Connection(c, c.threads[i].agent).Some?
      && Flight(Connection(c, c.threads[i].agent).value, id, c.threads[i].session.value) in c.flights
    case _ => true
  }

  /** Connections are new, and what they bring carries their number. */
  ghost predicate Proper(c: Core, m: Move)
    requires Allowed(c, m)
  {
    match m
    case Attach(_, conn) =>
      && (forall a :: a in c.slots ==> c.slots[a] != Ready(conn))
      && (forall f :: f in c.flights ==> f.conn != conn)
    case PushCard(i, _, Some(token), _, _) => Brings(c, c.threads[i].agent, token)
                                              || (c.threads[i].session.Some? && Late(c, c.threads[i].agent))
    case _ => true
  }

  /** An agent is started only for a thread. */
  predicate Used(c: Core, m: Move) {
    m.Begin? ==> First(c.threads, AnyOf(m.agent)).Some?
  }

  /** No thread starts, no search for programs begins or ends, no agent gets its connection, and no
      sign-in ends. */
  ghost predicate Still(c: Core, m: Move) {
    match m
    case Aside(d) => d.lookup == c.lookup && forall id :: SignInJob(id) in c.jobs ==> SignInJob(id) in d.jobs
    case Mark(_, status) => !status.Starting?
    case _ => !m.Add? && !m.Attach?
  }

  /** The request came over the agent's connection. */
  predicate Brings(c: Core, agent: string, token: Token) { Connection(c, agent) == Some(token.conn) }

  predicate Late(c: Core, agent: string) { Connection(c, agent).None? }

  // ----- Chains -----

  /** What a chain promises of each of its moves. */
  datatype Care = Care(orderly: bool, proper: bool, used: bool := false, still: bool := false)

  ghost predicate Good(c: Core, m: Move, care: Care) {
    Allowed(c, m) && (care.orderly ==> Orderly(c, m)) && (care.proper ==> Proper(c, m)) && (care.used ==> Used(c, m))
    && (care.still ==> Still(c, m))
  }

  /** The moves lead from `c` to `d`. */
  ghost predicate Chain(c: Core, ms: seq<Move>, d: Core, care: Care)
    decreases |ms|
  {
    if ms == [] then c == d else Good(c, ms[0], care) && Chain(Do(c, ms[0]), ms[1..], d, care)
  }

  lemma {:induction false} Joined(c: Core, a: seq<Move>, d: Core, b: seq<Move>, e: Core, care: Care)
    requires Chain(c, a, d, care) && Chain(d, b, e, care)
    ensures Chain(c, a + b, e, care)
    decreases |a|
  {
    hide Do, Allowed, Orderly, Proper;
    if a == [] {
      assert a + b == b;
    } else {
      Joined(Do(c, a[0]), a[1..], d, b, e, care);
      assert (a + b)[1..] == a[1..] + b;
    }
  }

  lemma Then(c: Core, m: Move, b: seq<Move>, e: Core, care: Care)
    requires Good(c, m, care) && Chain(Do(c, m), b, e, care)
    ensures Chain(c, [m] + b, e, care)
  {
    hide Do, Allowed, Orderly, Proper;
    assert ([m] + b)[1..] == b;
  }
}
