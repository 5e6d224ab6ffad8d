/** Nothing an agent or a change tool waits for is lost or settled twice. */
module Duties {
  import opened Wrappers
  import opened AgentTypes
  import opened AgentSteps
  import opened Sums

  /** What the core owes: an answer to a request, a decision on a proposed change. */
  datatype Duty = AnswerTo(token: Token) | DecisionOn(approval: nat)

  function Owed(token: Option<Token>, approval: Option<nat>): multiset<Duty> {
    (match token case Some(t) => multiset{AnswerTo(t)} case None => multiset{})
    + (match approval case Some(a) => multiset{DecisionOn(a)} case None => multiset{})
  }

  function OfCard(p: Pending): multiset<Duty> { Owed(p.responder, p.approval) }

  function OfThread(t: Thread): multiset<Duty> { Sum(t.pending, OfCard) }

  function OfJob(j: Job): multiset<Duty> {
    match j
    case RunJob(token) => Owed(Some(token), None)
    case FileJob(token) => Owed(Some(token), None)
    case SignInJob(_) => multiset{}
  }

  /** The duty a fact settles. */
  function OfFact(f: Fact): multiset<Duty> {
    match f
    case Replied(token, _) => Owed(Some(token), None)
    case Decided(a, _) => Owed(None, Some(a))
    case Forgotten(a) => Owed(None, Some(a))
    case _ => multiset{}
  }

  /** The duty an event brings. */
  function OfEvent(e: Event): multiset<Duty> {
    match e
    case Call(_, call, _) => OfCall(call)
    case ChangeRequested(_, _, a, _) => Owed(None, Some(a))
    case _ => multiset{}
  }

  function OfCall(call: ClientCall): multiset<Duty> {
    match call
    case PermissionCall(_, _, token) => Owed(Some(token), None)
    case TerminalCall(_, _, token) => Owed(Some(token), None)
    case ReadCall(_, _, token) => Owed(Some(token), None)
    case WriteCall(_, _, _, _, token) => Owed(Some(token), None)
    case ElicitationCall(_, _, token) => Owed(Some(token), None)
    case _ => multiset{}
  }

  /** Still open, on a card or in running work. */
  function Open(c: Core): multiset<Duty> { Sum(c.threads, OfThread) + Sum(c.jobs, OfJob) }

  function Settled(c: Core): multiset<Duty> { Sum(c.log, OfFact) }

  function Load(c: Core): multiset<Duty> { Open(c) + Settled(c) }

  // ----- Facts of cards that go away -----

  lemma ForgetSum(p: Pending)
    ensures Sum(ForgetFacts(p), OfFact) == Owed(None, p.approval)
  {
    if p.approval.Some? { SumOne(Forgotten(p.approval.value), OfFact); }
  }

  lemma DropResponderSum(p: Pending)
    ensures Sum(DropResponder(p), OfFact) == Owed(p.responder, None)
  {
  }

  /** However a card goes away, exactly its duties are settled. */
  lemma CardFacts(p: Pending)
    ensures Sum(CancelFacts(p), OfFact) == OfCard(p)
    ensures Sum(DropFacts(p), OfFact) == OfCard(p)
    ensures Sum(AcceptFacts(p), OfFact) == OfCard(p)
  {
    hide Sum, CancelFacts, AcceptFacts;
    DropResponderSum(p);
    ForgetSum(p);
    SumAppend(DropResponder(p), ForgetFacts(p), OfFact);
    CancelSum(p);
    AcceptSum(p);
  }

  lemma CancelSum(p: Pending)
    ensures Sum(CancelFacts(p), OfFact) == OfCard(p)
  {
    hide Sum;
    ForgetSum(p);
    match p.responder
    case None => assert [] + ForgetFacts(p) == ForgetFacts(p);
    case Some(token) =>
      match p.kind
      case Permission(_, _, _, _, _) => ReplySum(token, PermissionCancelled, p);
      case Form(_) => ReplySum(token, FormCancelled, p);
      case OpenUrl(_, _, _) => ReplySum(token, FormCancelled, p);
      case _ => ReplySum(token, Reply.Cancelled, p);
  }

  lemma ReplySum(token: Token, reply: Reply, p: Pending)
    requires p.responder == Some(token)
    ensures Sum([Replied(token, reply)] + ForgetFacts(p), OfFact) == OfCard(p)
  {
    hide ForgetFacts;
    ForgetSum(p);
    SumAppend([Replied(token, reply)], ForgetFacts(p), OfFact);
    SumOne(Replied(token, reply), OfFact);
  }

  lemma AcceptSum(p: Pending)
    ensures Sum(AcceptFacts(p), OfFact) == OfCard(p)
  {
    hide ForgetFacts, Sum;
    ForgetSum(p);
    var done := PageDone(p);
    SumOne(done, OfFact);
    match p.responder {
      case None =>
        assert AcceptFacts(p) == [done] + ForgetFacts(p);
        SumAppend([done], ForgetFacts(p), OfFact);
      case Some(token) =>
        var reply := Replied(token, Accepted("{}"));
        SumOne(reply, OfFact);
        SumAppend([done], [reply], OfFact);
        SumAppend([done] + [reply], ForgetFacts(p), OfFact);
    }
  }

  lemma {:induction false} CancelAllSum(ps: seq<Pending>)
    ensures Sum(CancelAll(ps), OfFact) == Sum(ps, OfCard)
  {
    hide CancelFacts, OfCard;
    if ps != [] {
      CancelAllSum(ps[1..]);
      CardFacts(ps[0]);
      SumAppend(CancelFacts(ps[0]), CancelAll(ps[1..]), OfFact);
      assert ps == [ps[0]] + ps[1..];
      SumAppend([ps[0]], ps[1..], OfCard);
      SumOne(ps[0], OfCard);
    }
  }

  lemma {:induction false} SiftSum(ps: seq<Pending>, sieve: Sieve)
    ensures Sum(SiftFacts(ps, sieve), OfFact) + Sum(Kept(ps, sieve), OfCard) == Sum(ps, OfCard)
  {
    hide OfCard, DropFacts, AcceptFacts, Stays;
    if ps != [] {
      var last, front := ps[|ps| - 1], ps[..|ps| - 1];
      SiftSum(front, sieve);
      var facts, kept := Sum(SiftFacts(front, sieve), OfFact), Sum(Kept(front, sieve), OfCard);
      if Stays(last, sieve) {
        SumOne(last, OfCard);
        SumAppend(Kept(front, sieve), [last], OfCard);
        assert facts + (kept + OfCard(last)) == facts + kept + OfCard(last);
      } else {
        CardFacts(last);
        assert Kept(front, sieve) + [] == Kept(front, sieve);
        SumAppend(SiftFacts(front, sieve), DropFacts(last), OfFact);
        SumAppend(AcceptFacts(last), SiftFacts(front, sieve), OfFact);
        assert facts + OfCard(last) + kept == facts + kept + OfCard(last);
        assert OfCard(last) + facts + kept == facts + kept + OfCard(last);
      }
    }
  }

  // ----- Small changes -----

  lemma LogLoad(c: Core, facts: seq<Fact>)
    ensures Load(Log(c, facts)) == Load(c) + Sum(facts, OfFact)
  {
    SumAppend(c.log, facts, OfFact);
  }

  lemma PutLoad(c: Core, i: nat, t: Thread)
    requires i < |c.threads|
    ensures Load(Put(c, i, t)) + OfThread(c.threads[i]) == Load(c) + OfThread(t)
  {
    hide Sum, OfThread;
    SumPut(c.threads, i, t, OfThread);
    var after, before := Sum(c.threads[i := t], OfThread), Sum(c.threads, OfThread);
    Exchange(after, before, OfThread(c.threads[i]), OfThread(t), Sum(c.jobs, OfJob));
    Exchange(after + Sum(c.jobs, OfJob), before + Sum(c.jobs, OfJob), OfThread(c.threads[i]), OfThread(t), Sum(c.log, OfFact));
  }

  /** Only threads, jobs and the history count. */
  lemma SameLoad(c: Core, d: Core)
    requires c.threads == d.threads && c.jobs == d.jobs && c.log == d.log
    ensures Load(c) == Load(d)
  {
  }

  lemma PutSameCards(c: Core, i: nat, t: Thread)
    requires i < |c.threads| && t.pending == c.threads[i].pending
    ensures Load(Put(c, i, t)) == Load(c)
  {
    hide Load, Sum;
    PutLoad(c, i, t);
    CancelSame(Load(Put(c, i, t)), Load(c), OfThread(t));
  }

  lemma NewJobLoad(c: Core, job: Job)
    ensures Load(NewJob(c, job)) == Load(c) + OfJob(job)
  {
    SumAppend(c.jobs, [job], OfJob);
    SumOne(job, OfJob);
  }

  lemma EndJobLoad(c: Core, job: nat)
    requires job < |c.jobs|
    ensures Load(EndJob(c, job)) + OfJob(c.jobs[job]) == Load(c)
  {
    SumRemove(c.jobs, job, OfJob);
  }

  lemma PushLoad(c: Core, i: nat, kind: PendingKind, responder: Option<Token>, launch: Option<Launch>, approval: Option<nat>)
    requires i < |c.threads|
    ensures Load(Push(c, i, kind, responder, launch, approval)) == Load(c) + Owed(responder, approval)
  {
    hide Load, Sum, Owed;
    var card := Pending(c.nextPending + 1, kind, responder, launch, approval);
    var t := c.threads[i].(pending := c.threads[i].pending + [card]);
    PutLoad(c, i, t);
    SumAppend(c.threads[i].pending, [card], OfCard);
    SumOne(card, OfCard);
    CancelPart(Load(Put(c, i, t)), Load(c), OfThread(c.threads[i]), OfCard(card));
    SameLoad(Push(c, i, kind, responder, launch, approval), Put(c, i, t));
  }

  lemma SweptSum(t: Thread, s: Sweep)
    ensures OfThread(Swept(t, s)) + Sum(SweptFacts(t, s), OfFact) == OfThread(t)
  {
    hide Sum;
    match s
    case RevokeWrites => SiftSum(t.pending, NoChanges);
    case PruneChanges(closed) => SiftSum(t.pending, LiveChanges(closed));
    case UrlDone(agent, e) => SiftSum(t.pending, NotUrl(e)); EmptySums();
    case AgentGone(agent) => CancelAllSum(t.pending); EmptySums();
    case _ => EmptySums();
  }

  lemma EmptySums()
    ensures Sum<Fact, Duty>([], OfFact) == multiset{} && Sum<Pending, Duty>([], OfCard) == multiset{}
  {
  }

  lemma {:induction false} SweepSum(ts: seq<Thread>, s: Sweep)
    ensures Sum(SweepThreads(ts, s), OfThread) + Sum(SweepFacts(ts, s), OfFact) == Sum(ts, OfThread)
  {
    hide Swept, SweptFacts, OfThread;
    if ts != [] {
      var last, front := ts[|ts| - 1], ts[..|ts| - 1];
      SweepSum(front, s);
      SweptSum(last, s);
      SumAppend(SweepFacts(front, s), SweptFacts(last, s), OfFact);
      SumAppend(SweepThreads(front, s), [Swept(last, s)], OfThread);
      SumOne(Swept(last, s), OfThread);
    }
  }

  lemma SweepLoad(c: Core, s: Sweep)
    ensures Load(SweepAll(c, s)) == Load(c)
  {
    SweepSum(c.threads, s);
    SumAppend(c.log, SweepFacts(c.threads, s), OfFact);
  }

  // ----- Agents and sessions -----

  lemma {:induction false} OpenLoad(c: Core, agent: string, i: nat)
    ensures Load(OpenFrom(c, agent, i)) == Load(c)
    decreases |c.threads| - i
  {
    hide Load;
    if i < |c.threads| {
      if Waiting(c.threads[i], agent) {
        var c1 := SetStatus(c, i, Starting);
        PutSameCards(c, i, c.threads[i].(status := Starting));
        OpenSessionLoad(c1, i);
        OpenLoad(OpenSession(c1, i), agent, i + 1);
      } else {
        OpenLoad(c, agent, i + 1);
      }
    }
  }

  lemma OpenSessionLoad(c: Core, i: nat)
    requires i < |c.threads|
    ensures Load(OpenSession(c, i)) == Load(c)
  {
    var t := c.threads[i];
    PutSameCards(c, i, t.(tasks := t.tasks + {c.nextTask}));
  }

  lemma EnsureLoad(c: Core, agent: string)
    ensures Load(EnsureAgent(c, agent)) == Load(c)
  {
    hide Load, OpenFrom, SweepAll;
    OpenLoad(c, agent, 0);
    SweepLoad(c, Missing(agent));
    SameLoad(c, c.(slots := c.slots[agent := StartingSlot(c.nextTask)], nextTask := c.nextTask + 1));
    SameLoad(c, c.(lookup := Looking(Some(agent))));
  }

  lemma RetryLoad(c: Core, id: nat)
    ensures Load(RetryStep(c, id)) == Load(c)
  {
    hide Load;
    match First(c.threads, ById(id))
    case None =>
    case Some(i) =>
      PutSameCards(c, i, c.threads[i].(status := Starting));
      EnsureLoad(SetStatus(c, i, Starting), c.threads[i].agent);
  }

  // ----- Turns -----

  lemma NoDuty(f: Fact)
    requires OfFact(f) == multiset{}
    ensures Sum([f], OfFact) == multiset{}
  {
    SumOne(f, OfFact);
  }

  lemma HandOverLoad(c: Core, i: nat, conn: nat, wire: Option<nat>)
    requires i < |c.threads| && CanPrompt(c.threads[i])
    ensures Load(HandOver(c, i, conn, wire)) == Load(c)
  {
    var t := c.threads[i];
    var fact := Handed(t.id, t.queued[0], conn, t.session.value, wire);
    PutSameCards(c, i, Busy(t));
    LogLoad(Put(c, i, Busy(t)), [fact]);
    NoDuty(fact);
  }

  /** Cards that go away settle exactly their duties. */
  lemma PutAndLog(c: Core, i: nat, t: Thread, facts: seq<Fact>)
    requires i < |c.threads|
    requires OfThread(t) + Sum(facts, OfFact) == OfThread(c.threads[i])
    ensures Load(Log(Put(c, i, t), facts)) == Load(c)
  {
    hide Load, Sum, OfThread;
    PutLoad(c, i, t);
    CancelPart(Load(c), Load(Put(c, i, t)), OfThread(t), Sum(facts, OfFact));
    LogLoad(Put(c, i, t), facts);
  }

  lemma RestLoad(c: Core, i: nat, result: TurnResult)
    requires i < |c.threads|
    ensures Load(RestAt(c, i, result)) == Load(c)
  {
    hide Load, Sum;
    var t := c.threads[i];
    CancelAllSum(t.pending);
    EmptySums();
    PutAndLog(c, i, Rested(t, result), CancelAll(t.pending));
  }

  lemma {:induction false} NextPromptLoad(c: Core, id: nat, wire: Option<nat>)
    ensures Load(NextPrompt(c, id, wire)) == Load(c)
    decreases Queue(c, id), 0
  {
    hide Load, HandOver, TurnEnded;
    match First(c.threads, ById(id))
    case None =>
    case Some(i) =>
      var t := c.threads[i];
      if CanPrompt(t) {
        match Connection(c, t.agent)
        case None =>
          PutSameCards(c, i, Busy(t));
          LogLoad(Put(c, i, Busy(t)), [Lost(id, t.queued[0])]);
          NoDuty(Lost(id, t.queued[0]));
        case Some(conn) =>
          HandOverLoad(c, i, conn, wire);
          QueueShrinks(c, id, i, conn, wire);
          if wire.None? { TurnEndedLoad(HandOver(c, i, conn, wire), id, TurnFailed("The connection closed"), wire); }
      }
  }

  lemma QueueShrinks(c: Core, id: nat, i: nat, conn: nat, wire: Option<nat>)
    requires First(c.threads, ById(id)) == Some(i) && CanPrompt(c.threads[i])
    ensures Queue(HandOver(c, i, conn, wire), id) < Queue(c, id)
  {
    FirstAfterPut(c.threads, i, Busy(c.threads[i]), ById(id));
  }

  lemma {:induction false} TurnEndedLoad(c: Core, id: nat, result: TurnResult, wire: Option<nat>)
    ensures Load(TurnEnded(c, id, result, wire)) == Load(c)
    decreases Queue(c, id), 1
  {
    hide Load;
    match First(c.threads, ById(id))
    case None =>
    case Some(i) =>
      RestLoad(c, i, result);
      FirstAfterPut(c.threads, i, Rested(c.threads[i], result), ById(id));
      NextPromptLoad(RestAt(c, i, result), id, wire);
  }

  // ----- Threads -----

  lemma StartThreadLoad(c: Core, agent: string, cluster: string, cwd: string, first: Option<Prompt>, resume: Option<string>)
    ensures Load(StartThreadStep(c, agent, cluster, cwd, first, resume)) == Load(c)
  {
    hide Load, EnsureAgent;
    var id := c.nextThread + 1;
    var t := NewThread(id, agent, cluster, cwd, first, resume);
    var c1 := c.(nextThread := id, contexts := c.contexts + {cluster}, threads := c.threads + [t], pruner := true);
    AddThreadLoad(c, t);
    SameLoad(c1, c.(threads := c.threads + [t]));
    var facts := match first { case Some(p) => [Asked(id, p)] case None => [] };
    LogLoad(c1, facts);
    EmptySums();
    if first.Some? { NoDuty(Asked(id, first.value)); }
    EnsureLoad(Log(c1, facts), agent);
  }

  lemma AddThreadLoad(c: Core, t: Thread)
    requires t.pending == []
    ensures Load(c.(threads := c.threads + [t])) == Load(c)
  {
    SumAppend(c.threads, [t], OfThread);
    SumOne(t, OfThread);
  }

  lemma {:induction false} WithdrawSum(id: nat, ps: seq<Prompt>)
    ensures Sum(WithdrawAll(id, ps), OfFact) == multiset{}
  {
    if ps != [] {
      WithdrawSum(id, ps[1..]);
      NoDuty(Withdrawn(id, ps[0]));
      SumAppend([Withdrawn(id, ps[0])], WithdrawAll(id, ps[1..]), OfFact);
    }
  }

  lemma CancelLoad(c: Core, i: nat)
    requires i < |c.threads|
    ensures Load(CancelAt(c, i)) == Load(c)
  {
    hide Load, Sum, WithdrawAll, CancelAll;
    var t := c.threads[i];
    var stop: seq<Fact> := if t.status.Running? && t.session.Some? && Connection(c, t.agent).Some?
      then [Interrupted(Connection(c, t.agent).value, t.session.value)] else [];
    var gone, cards := WithdrawAll(t.id, t.queued), CancelAll(t.pending);
    EmptySums();
    if stop != [] { NoDuty(Interrupted(Connection(c, t.agent).value, t.session.value)); }
    WithdrawSum(t.id, t.queued);
    CancelAllSum(t.pending);
    SumAppend(gone, cards, OfFact);
    SumAppend(gone + cards, stop, OfFact);
    PutAndLog(c, i, t.(queued := [], pending := []), gone + cards + stop);
  }

  lemma RemoveLoad(c: Core, i: nat)
    requires i < |c.threads| && c.threads[i].pending == []
    ensures Load(RemoveAt(c, i)) == Load(c)
  {
    SumRemove(c.threads, i, OfThread);
  }

  lemma CloseThreadLoad(c: Core, id: nat)
    ensures Load(CloseThreadStep(c, id)) == Load(c)
  {
    hide Load;
    match First(c.threads, ById(id))
    case None =>
    case Some(i) =>
      CancelLoad(c, i);
      RemoveLoad(CancelAt(c, i), i);
  }

  lemma SendLoad(c: Core, id: nat, prompt: Prompt, wire: Option<nat>)
    ensures Load(SendStep(c, id, prompt, wire)) == Load(c)
  {
    hide Load, NextPrompt, RetryStep;
    match First(c.threads, ById(id))
    case None =>
    case Some(i) =>
      var t := c.threads[i];
      var t1 := t.(entries := t.entries + [Transcripts.User(prompt.text, prompt.chips)], queued := t.queued + [prompt]);
      PutSameCards(c, i, t1);
      LogLoad(Put(c, i, t1), [Asked(id, prompt)]);
      NoDuty(Asked(id, prompt));
      var c1 := Log(Put(c, i, t1), [Asked(id, prompt)]);
      NextPromptLoad(c1, id, wire);
      RetryLoad(c1, id);
  }

  lemma SignInLoad(c: Core, id: nat)
    ensures Load(SignInStep(c, id)) == Load(c)
  {
    hide Load;
    match First(c.threads, ById(id))
    case None =>
    case Some(i) =>
      PutSameCards(c, i, c.threads[i].(status := Starting));
      RetryLoad(SetStatus(c, i, Starting), id);
      NewJobLoad(SetStatus(c, i, Starting), SignInJob(id));
  }

  lemma SignedInLoad(c: Core, job: nat, ok: bool)
    ensures Load(SignedInStep(c, job, ok)) == Load(c)
  {
    hide Load;
    if job < |c.jobs| && c.jobs[job].SignInJob? {
      EndJobLoad(c, job);
      var c1 := EndJob(c, job);
      match First(c.threads, ById(c.jobs[job].thread))
      case None =>
      case Some(i) =>
        OpenSessionLoad(c1, i);
        PutSameCards(c1, i, c1.threads[i].(status := Failed));
    }
  }

  lemma SessionOpenedLoad(c: Core, id: nat, task: nat, opening: Opening, wire: Option<nat>)
    ensures Load(SessionOpenedStep(c, id, task, opening, wire)) == Load(c)
  {
    hide Load, NextPrompt;
    match First(c.threads, ById(id))
    case None =>
    case Some(i) =>
      var t := c.threads[i].(tasks := c.threads[i].tasks - {task});
      PutSameCards(c, i, t.(status := NeedsSignIn));
      PutSameCards(c, i, t.(status := Failed));
      if opening.Opened? {
        PutSameCards(c, i, OpenedThread(t, opening.session));
        NextPromptLoad(Put(c, i, OpenedThread(t, opening.session)), id, wire);
      }
  }

  lemma SetWritesLoad(c: Core, id: nat, enabled: bool)
    ensures Load(SetWritesStep(c, id, enabled)) == Load(c)
  {
    hide Load, Sum;
    match First(c.threads, ById(id))
    case None =>
    case Some(i) =>
      var t := c.threads[i];
      PutSameCards(c, i, t.(writes := true));
      SiftSum(t.pending, NoChanges);
      PutAndLog(c, i, t.(writes := false, pending := Kept(t.pending, NoChanges)), SiftFacts(t.pending, NoChanges));
  }

  lemma SettingsLoad(c: Core, allow: bool, configured: set<string>)
    ensures Load(SettingsStep(c, allow, configured)) == Load(c)
  {
    SweepLoad(c, RevokeWrites);
  }

  lemma NoticeLoad(c: Core, id: nat, text: string, error: bool)
    ensures Load(NoticeStep(c, id, text, error)) == Load(c)
  {
    hide Load;
    var i := First(c.threads, ById(id));
    if i.Some? {
      PutSameCards(c, i.value, c.threads[i.value].(entries := c.threads[i.value].entries + [Transcripts.Notice(text, error)]));
    }
  }

  lemma ChangeRequestedLoad(c: Core, id: nat, proposal: string, approval: nat, gaveUp: bool)
    ensures Load(ChangeRequestedStep(c, id, proposal, approval, gaveUp)) == Load(c) + Owed(None, Some(approval))
  {
    hide Load, Sum, Push;
    var counted := c.(nextPending := c.nextPending + 1);
    SameLoad(c, counted);
    SumOne(Forgotten(approval), OfFact);
    LogLoad(c, [Forgotten(approval)]);
    LogLoad(counted, [Forgotten(approval)]);
    if First(c.threads, ById(id)).Some? {
      PushLoad(c, First(c.threads, ById(id)).value, Change(proposal), None, None, Some(approval));
    }
  }

  lemma LookedUpLoad(c: Core, found: set<string>)
    ensures Load(LookedUpStep(c, found)) == Load(c)
  {
    hide EnsureAgent, Sum;
    if c.lookup.Looking? && c.lookup.agent.Some? {
      var c1 := c.(lookup := NoLookup, agents := map a | a in c.agents :: Info(a in found, true));
      EnsureLoad(c1, c.lookup.agent.value);
    }
  }

  lemma AgentStartedLoad(c: Core, agent: string, task: nat, conn: Option<nat>)
    ensures Load(AgentStartedStep(c, agent, task, conn)) == Load(c)
  {
    if conn.Some? {
      OpenLoad(c.(slots := c.slots[agent := Ready(conn.value)]), agent, 0);
    } else {
      SweepLoad(c.(slots := c.slots - {agent}), StartFailed(agent));
    }
  }

  // ----- Calls -----

  lemma ReplyLoad(c: Core, token: Token, reply: Reply)
    ensures Load(Log(c, [Replied(token, reply)])) == Load(c) + Owed(Some(token), None)
  {
    LogLoad(c, [Replied(token, reply)]);
  }

  lemma RunCommandLoad(c: Core, thread: nat, agent: string, launch: Launch, token: Token, card: nat, byGrant: bool,
                       warned: bool)
    ensures Load(RunCommand(c, thread, agent, launch, token, card, byGrant, warned)) == Load(c) + Owed(Some(token), None)
  {
    hide Load;
    ReplyLoad(c, token, AgentStopped);
    NewJobLoad(c, RunJob(token));
    var fact := Ran(thread, launch, card, byGrant, warned, c.now, token);
    LogLoad(NewJob(c, RunJob(token)), [fact]);
    NoDuty(fact);
  }

  lemma PermissionLoad(c: Core, agent: string, session: string, p: PermissionRequest, token: Token)
    ensures Load(PermissionStep(c, agent, session, p, token)) == Load(c) + Owed(Some(token), None)
  {
    hide Load, Kubyl, KnownTitle, PermissionKind, AllowOption;
    match First(c.threads, BySession(agent, session))
    case None => ReplyLoad(c, token, PermissionCancelled);
    case Some(i) =>
      var option := AllowOption(p.options);
      if option.Some? {
        var pass := LetThrough(c.threads[i].id, p, KnownTitle(c.threads[i], p), token);
        NoDuty(pass);
        LogLoad(c, [pass]);
        ReplyLoad(Log(c, [pass]), token, Selected(option.value));
        assert c.log + [pass] + [Replied(token, Selected(option.value))] == c.log + [pass, Replied(token, Selected(option.value))];
      }
      PushLoad(c, i, PermissionKind(c.threads[i], p), Some(token), None, None);
  }

  lemma TerminalLoad(c: Core, agent: string, session: string, r: TerminalRequest, token: Token)
    ensures Load(TerminalStep(c, agent, session, r, token)) == Load(c) + Owed(Some(token), None)
  {
    hide Load, LaunchOf, RunCommand;
    match First(c.threads, BySession(agent, session))
    case None => ReplyLoad(c, token, ThreadClosed);
    case Some(i) =>
      var t := c.threads[i];
      var launch := LaunchOf(t, r);
      if CoveredBy(t, r, c.now) {
        PutSameCards(c, i, t.(grant := None));
        RunCommandLoad(Put(c, i, t.(grant := None)), t.id, agent, launch, token, t.grant.value.card, true, Warned(r));
      } else {
        PushLoad(c, i, Command(Policy.Line(r.command, r.args), launch.cwd, ShownEnv(launch.env), Warned(r)), Some(token), Some(launch), None);
      }
  }

  lemma AskLoad(c: Core, agent: string, session: string, kind: PendingKind, token: Token)
    ensures Load(AskStep(c, agent, session, kind, token)) == Load(c) + Owed(Some(token), None)
  {
    hide Load;
    match First(c.threads, BySession(agent, session))
    case None => ReplyLoad(c, token, ThreadClosed);
    case Some(i) => PushLoad(c, i, kind, Some(token), None, None);
  }

  lemma ElicitationLoad(c: Core, agent: string, question: Option<Question>, of: Option<string>, token: Token)
    ensures Load(ElicitationStep(c, agent, question, of, token)) == Load(c) + Owed(Some(token), None)
  {
    hide Load;
    ReplyLoad(c, token, InvalidParams);
    ReplyLoad(c, token, FormCancelled);
    if question.Some? && ElicitationThread(c, agent, of).Some? {
      PushLoad(c, ElicitationThread(c, agent, of).value, QuestionKind(question.value), Some(token), None, None);
    }
  }

  lemma UpdateLoad(c: Core, agent: string, session: string, u: Transcripts.Update)
    ensures Load(UpdateStep(c, agent, session, u)) == Load(c)
  {
    hide Load;
    var i := if First(c.threads, BySession(agent, session)).Some? then First(c.threads, BySession(agent, session))
      else First(c.threads, ByResume(agent, session));
    if i.Some? {
      PutSameCards(c, i.value, c.threads[i.value].(entries := Transcripts.Applied(c.threads[i.value].entries, u)));
    }
  }

  lemma TurnEndedStepLoad(c: Core, agent: string, session: string, id: nat, result: TurnResult, wire: Option<nat>)
    ensures Load(TurnEndedStep(c, agent, session, id, result, wire)) == Load(c)
  {
    hide TurnEnded, Sum;
    var c1 := match Connection(c, agent) {
      case Some(conn) => c.(flights := c.flights - {Flight(conn, id, session)})
      case None => c
    };
    match First(c1.threads, BySession(agent, session))
    case None =>
    case Some(i) => TurnEndedLoad(c1, c1.threads[i].id, result, wire);
  }

  lemma CallLoad(c: Core, agent: string, call: ClientCall, wire: Option<nat>)
    ensures Load(CallStep(c, agent, call, wire)) == Load(c) + OfCall(call)
  {
    hide Load, UpdateStep, PermissionStep, TerminalStep, AskStep, ElicitationStep, SweepAll, TurnEndedStep;
    match call
    case UpdateCall(session, u) => UpdateLoad(c, agent, session, u);
    case PermissionCall(session, p, token) => PermissionLoad(c, agent, session, p, token);
    case TerminalCall(session, r, token) => TerminalLoad(c, agent, session, r, token);
    case ReadCall(session, path, token) => AskLoad(c, agent, session, Read(path), token);
    case WriteCall(session, path, before, content, token) => AskLoad(c, agent, session, Write(path, before, content), token);
    case ElicitationCall(question, of, token) => ElicitationLoad(c, agent, question, of, token);
    case ElicitationComplete(id) => SweepLoad(c, UrlDone(agent, id));
    case TurnEndedCall(session, id, result) => TurnEndedStepLoad(c, agent, session, id, result, wire);
    case ClosedCall => ClosedLoad(c, agent);
  }

  lemma ClosedLoad(c: Core, agent: string)
    ensures Load(ClosedStep(c, agent)) == Load(c)
  {
    SweepLoad(c.(slots := c.slots - {agent}), AgentGone(agent));
  }

  // ----- Answers -----

  lemma TakeCardLoad(c: Core, i: nat, j: nat)
    requires i < |c.threads| && j < |c.threads[i].pending|
    ensures Load(TakeCard(c, i, j)) + OfCard(c.threads[i].pending[j]) == Load(c)
  {
    hide Load, Sum, OfCard;
    var t := c.threads[i];
    var t1 := t.(pending := t.pending[..j] + t.pending[j + 1..]);
    PutLoad(c, i, t1);
    SumRemove(t.pending, j, OfCard);
    CancelPart(Load(c), Load(Put(c, i, t1)), OfThread(t1), OfCard(t.pending[j]));
  }

  lemma AnswerPermissionLoad(c: Core, i: nat, item: Pending, token: Token, answer: Answer)
    requires i < |c.threads| && item.kind.Permission?
    ensures Load(AnswerPermission(c, i, item, token, answer)) == Load(c) + Owed(Some(token), None)
  {
    hide Load, ChoiceOf;
    ReplyLoad(c, token, PermissionCancelled);
    var choice := ChoiceOf(item.kind.choices, answer);
    if choice.Some? {
      var t := c.threads[i];
      var t1 := t.(grant := Some(Grant(c.now, item.kind.command, item.id)));
      var fact := Granted(t.id, item.id, item.kind.command, c.now);
      PutSameCards(c, i, t1);
      LogLoad(Put(c, i, t1), [fact]);
      NoDuty(fact);
      ReplyLoad(c, token, Selected(choice.value.id));
      ReplyLoad(Log(Put(c, i, t1), [fact]), token, Selected(choice.value.id));
    }
  }

  lemma AnswerItemLoad(c: Core, i: nat, item: Pending, token: Token, answer: Answer)
    requires i < |c.threads|
    ensures Load(AnswerItem(c, i, item, token, answer)) == Load(c) + Owed(Some(token), None)
  {
    hide Load, AnswerPermission, RunCommand;
    ReplyLoad(c, token, UserDeclined);
    ReplyLoad(c, token, Unanswered);
    ReplyLoad(c, token, Declined);
    NewJobLoad(c, FileJob(token));
    match item.kind
    case Permission(_, _, _, _, _) => AnswerPermissionLoad(c, i, item, token, answer);
    case Command(_, _, _, _) =>
      if item.launch.Some? {
        RunCommandLoad(c, c.threads[i].id, c.threads[i].agent, item.launch.value, token, item.id, false, item.kind.warned);
      }
    case Form(_) => if answer.Submit? { ReplyLoad(c, token, Accepted(answer.content)); }
    case OpenUrl(_, _, _) => ReplyLoad(c, token, Accepted("{}"));
    case _ =>
  }

  lemma DecideLoad(c: Core, item: Pending, answer: Answer)
    ensures Load(DecideItem(c, item, answer)) == Load(c) + OfCard(item)
  {
    hide Load, Sum, DropResponder;
    DropResponderSum(item);
    match item.approval
    case None => LogLoad(c, DropResponder(item));
    case Some(a) =>
      var fact := Decided(a, if Yes(answer) then Approved else Rejected);
      SumOne(fact, OfFact);
      SumAppend([fact], DropResponder(item), OfFact);
      LogLoad(c, [fact] + DropResponder(item));
      assert OfFact(fact) + Owed(item.responder, None) == OfCard(item);
  }

  lemma AnswerLoad(c: Core, id: nat, card: nat, answer: Answer)
    ensures Load(AnswerStep(c, id, card, answer)) == Load(c)
  {
    hide Load, AnswerTaken, TakeCard;
    match First(c.threads, ById(id))
    case None =>
    case Some(i) =>
      match CardAt(c.threads[i].pending, card)
      case None =>
      case Some(j) =>
        TakeCardLoad(c, i, j);
        TakeCardThreads(c, i, j);
        AnswerTakenLoad(TakeCard(c, i, j), id, i, c.threads[i].pending[j], answer);
  }

  lemma AnswerTakenLoad(c: Core, id: nat, i: nat, item: Pending, answer: Answer)
    requires i < |c.threads|
    ensures Load(AnswerTaken(c, id, i, item, answer)) == Load(c) + OfCard(item)
  {
    hide Load, Sum, DecideItem, AnswerItem, ForgetFacts;
    var chosen := Chosen(id, item, answer, c.allowWrites && c.threads[i].writes);
    var c1 := Log(c, [chosen]);
    LogLoad(c, [chosen]);
    NoDuty(chosen);
    if item.kind.Change? {
      DecideLoad(c1, item, answer);
    } else {
      LogLoad(c1, ForgetFacts(item));
      ForgetSum(item);
      if item.responder.Some? { AnswerItemLoad(Log(c1, ForgetFacts(item)), i, item, item.responder.value, answer); }
    }
  }

  lemma TakeCardThreads(c: Core, i: nat, j: nat)
    requires i < |c.threads| && j < |c.threads[i].pending|
    ensures |TakeCard(c, i, j).threads| == |c.threads|
  {
  }

  lemma JobDoneLoad(c: Core, job: nat, ok: bool)
    ensures Load(JobDoneStep(c, job, ok)) == Load(c)
  {
    hide Load;
    if job < |c.jobs| && !c.jobs[job].SignInJob? {
      var token := c.jobs[job].token;
      EndJobLoad(c, job);
      ReplyLoad(EndJob(c, job), token, TerminalCreated);
      ReplyLoad(EndJob(c, job), token, FileDone);
      ReplyLoad(EndJob(c, job), token, WorkFailed);
    }
  }

  // ----- Runs -----

  lemma StepLoad(c: Core, e: Event)
    ensures Load(Step(c, e)) == Load(c) + OfEvent(e)
  {
    hide Load, StartThreadStep, RetryStep, CloseThreadStep, SendStep, CancelAt, SignInStep, SignedInStep, SetWritesStep,
         SettingsStep, SweepAll, ChangeRequestedStep, LookedUpStep, AgentStartedStep, SessionOpenedStep, CallStep,
         AnswerStep, JobDoneStep, NoticeStep, OfCall;
    match e
    case StartThread(agent, cluster, cwd, first, resume) => StartThreadLoad(c, agent, cluster, cwd, first, resume);
    case Retry(id) => RetryLoad(c, id);
    case CloseThread(id) => CloseThreadLoad(c, id);
    case Send(id, prompt, wire) => SendLoad(c, id, prompt, wire);
    case Cancel(id) =>
      if First(c.threads, ById(id)).Some? { CancelLoad(c, First(c.threads, ById(id)).value); }
    case SignIn(id) => SignInLoad(c, id);
    case SignedIn(job, ok) => SignedInLoad(c, job, ok);
    case SetWrites(id, enabled) => SetWritesLoad(c, id, enabled);
    case SettingsChanged(allow, configured) => SettingsLoad(c, allow, configured);
    case RefreshAgents => SameLoad(c, Step(c, e));
    case SetProgram(agent, installed) => SameLoad(c, Step(c, e));
    case AddNotice(id, text, error) => NoticeLoad(c, id, text, error);
    case Prune(closed) => SweepLoad(c, PruneChanges(closed));
    case ChangeRequested(id, proposal, approval, gaveUp) => ChangeRequestedLoad(c, id, proposal, approval, gaveUp);
    case LookedUp(found) => LookedUpLoad(c, found);
    case AgentStarted(agent, task, conn) => AgentStartedLoad(c, agent, task, conn);
    case SessionOpened(id, task, opening, wire) => SessionOpenedLoad(c, id, task, opening, wire);
    case Call(agent, call, wire) => CallLoad(c, agent, call, wire);
    case AnswerCard(id, card, answer) => AnswerLoad(c, id, card, answer);
    case JobDone(job, ok) => JobDoneLoad(c, job, ok);
    case Tick(elapsed) => TickLoad(c, elapsed);
  }

  lemma TickLoad(c: Core, elapsed: nat)
    ensures Load(c.(now := c.now + elapsed)) == Load(c)
  {
  }

  function Brought(events: seq<Event>): multiset<Duty> {
    if events == [] then multiset{} else OfEvent(events[0]) + Brought(events[1..])
  }

  lemma {:induction false} RunLoad(c: Core, events: seq<Event>)
    ensures Load(Run(c, events)) == Load(c) + Brought(events)
    decreases |events|
  {
    hide Load, Step, OfEvent;
    if events != [] {
      StepLoad(c, events[0]);
      RunLoad(Step(c, events[0]), events[1..]);
    }
  }

  /** Over any run from the start: every request and every proposed change that reached the core
      is settled exactly as often as it came, or still open in exactly one place. */
  lemma ExactlyOnce(configured: set<string>, allowWrites: bool, events: seq<Event>)
    ensures var c := Run(Fresh(configured, allowWrites), events);
            Open(c) + Settled(c) == Brought(events)
  {
    RunLoad(Fresh(configured, allowWrites), events);
    assert Load(Fresh(configured, allowWrites)) == multiset{};
  }

  /** A proposed change that was brought once is decided or dropped at most once; so a change that was
      approved was never rejected, and the other way round. */
  lemma EachChangeIsDecidedOnce(configured: set<string>, allowWrites: bool, events: seq<Event>, approval: nat, j: nat, k: nat)
    requires Brought(events)[DecisionOn(approval)] <= 1
    requires var log := Run(Fresh(configured, allowWrites), events).log;
             j < k < |log| && (log[j].Decided? || log[j].Forgotten?) && (log[k].Decided? || log[k].Forgotten?)
    ensures var log := Run(Fresh(configured, allowWrites), events).log;
            !(log[j].approval == approval && log[k].approval == approval)
  {
    hide Run, Sum, Brought;
    var c, d := Run(Fresh(configured, allowWrites), events), DecisionOn(approval);
    ExactlyOnce(configured, allowWrites, events);
    SumTwoOf(c.log, j, k, OfFact);
    assert Settled(c)[d] <= Brought(events)[d];
    assert (OfFact(c.log[j]) + OfFact(c.log[k]))[d] <= Sum(c.log, OfFact)[d];
  }
}
