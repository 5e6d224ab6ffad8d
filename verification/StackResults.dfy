/** What holds of the whole stack, over every interleaving of the core and its connections. */
module StackResults {
  import opened Wrappers
  import opened AgentTypes
  import opened AgentSteps
  import opened AgentRuns
  import opened Handing
  import opened Wires
  import opened WireOut
  import opened Stacks
  import opened StackSafety
  import opened Sums
  import AgentLinks
  import AgentMoves
  import AgentWires
  import AgentTurns
  import Duties
  import WireTokens
  import WireTurns

  // ----- Requests that the core has -----

  function LentTo(w: Wire, t: Token): nat {
    if w.handled <= |w.calls| then WireTokens.ForApp(w)[t] else 0
  }

  function LentBy(wires: map<nat, Wire>, t: Token): nat {
    if t.conn in wires then LentTo(wires[t.conn], t) else 0
  }

  /** The core has, open or settled, exactly the requests whose calls it has handled. */
  ghost predicate Lent(c: Core, wires: map<nat, Wire>) {
    forall t :: Duties.Load(c)[Duties.AnswerTo(t)] == LentBy(wires, t)
  }

  lemma SameLent(w: Wire, d: Wire)
    requires w.handled <= |w.calls| && w.calls <= d.calls && d.handled == w.handled
    ensures forall t :: LentTo(d, t) == LentTo(w, t)
  {
    hide Sum;
    assert d.calls[..w.handled] == w.calls[..w.handled];
  }

  lemma OneWireLent(c: Core, wires: map<nat, Wire>, k: nat, d: Wire)
    requires Lent(c, wires) && k in wires && (forall t :: LentTo(d, t) == LentTo(wires[k], t))
    ensures Lent(c, wires[k := d])
  {
    hide LentTo, Duties.Load;
  }

  lemma EventLent(c: Core, wires: map<nat, Wire>, e: Event, from: Option<nat>)
    requires Lent(c, wires) && FromCall(c, wires, e, from)
    requires from.Some? ==> Reachable(wires[from.value]) && wires[from.value].conn == from.value
    ensures Lent(Step(c, e), Handled(wires, from))
  {
    hide Step, Duties.Load, Reachable, Go, LentTo, Can;
    Duties.StepLoad(c, e);
    match from
    case None => NoRequest(e);
    case Some(k) =>
      CallBrings(e);
      HandleLent(wires[k]);
      NextToken2(wires[k]);
  }

  lemma NoRequest(e: Event)
    requires !e.Call?
    ensures forall t :: Duties.OfEvent(e)[Duties.AnswerTo(t)] == 0
  {
  }

  lemma CallBrings(e: Event)
    requires e.Call?
    ensures forall t :: Duties.OfEvent(e)[Duties.AnswerTo(t)] == WireTokens.OfToken(TokenOf(e.call))[t]
  {
  }

  lemma HandleLent(w: Wire)
    requires Reachable(w) && Can(w, Handle)
    ensures forall t :: LentTo(Go(w, Handle), t) == LentTo(w, t) + WireTokens.OfToken(TokenOf(w.calls[w.handled].call))[t]
  {
    hide Reachable, TokenOf;
    HandleToken(w);
    HandleOut(w);
  }

  lemma NextToken2(w: Wire)
    requires Reachable(w) && Can(w, Handle)
    ensures forall t :: WireTokens.OfToken(TokenOf(w.calls[w.handled].call))[t] > 0 ==> t.conn == w.conn
  {
    hide Reachable, TokenOf;
    NextToken(w);
  }

  /** What the events in hand promise, while the app is inside `start_prompt`. */
  ghost predicate AppCare(s: Stack, care: bool) {
    care && !s.app.Resting? ==> Considerate(s.core, s.app.event)
  }

  ghost predicate Whole(s: Stack, care: bool) { Agrees(s, care) && AppCare(s, care) && Lent(s.core, s.wires) }

  lemma CareKept(s: Stack, m: StackMove, care: bool)
    requires AppCare(s, care) && Can1(s, m) && (care ==> CareOf(s, m))
    ensures AppCare(Go1(s, m), care)
  {
    hide Considerate, Step, Go, Can, Hands, Comes;
  }

  lemma LentKept(s: Stack, m: StackMove, care: bool)
    requires Agrees(s, care) && Lent(s.core, s.wires) && Can1(s, m)
    ensures Lent(Go1(s, m).core, Go1(s, m).wires)
  {
    hide Agrees, Step, Go, Can, Lent, Hands, Handled, Comes;
    match m
    case Dial(k, caps) => DialLent(s, k, caps);
    case Aside(k, move) => MoveLent(s, k, move, care);
    case Act(e, from) => ActLent(s, e, from, care);
    case Pick(e, from) =>
      LockCan(s.wires[Hands(s.core, e).value.0], Hands(s.core, e).value.1);
      MoveLent(s, Hands(s.core, e).value.0, LockPrompts(Hands(s.core, e).value.1), care);
    case Talk(move) => MoveLent(s, s.app.conn, move, care);
    case Deliver => DeliverLent(s, care);
    case GiveUp => MoveLent(s, s.app.conn, Unregister(s.wires[s.app.conn].lock.id), care);
    case Again =>
      LockCan(s.wires[s.app.conn], s.app.session);
      MoveLent(s, s.app.conn, LockPrompts(s.app.session), care);
    case Settle =>
      InApp(s, care);
      ActLent(s, s.app.event, s.app.from, care);
  }

  lemma DialLent(s: Stack, k: nat, caps: Caps)
    requires Lent(s.core, s.wires) && k !in s.wires
    ensures Lent(s.core, s.wires[k := Wires.Fresh(k, caps)])
  {
    hide Duties.Load;
  }

  lemma WireOf1(s: Stack, k: nat, care: bool)
    requires Agrees(s, care) && k in s.wires
    ensures Reachable(s.wires[k]) && s.wires[k].conn == k && s.wires[k].handled <= |s.wires[k].calls|
  {
    hide Reachable;
    HandledBound(s.wires[k]);
  }

  lemma MoveLent(s: Stack, k: nat, m: Move, care: bool)
    requires Agrees(s, care) && Lent(s.core, s.wires) && k in s.wires && Can(s.wires[k], m) && !m.Handle?
    ensures Lent(s.core, s.wires[k := Go(s.wires[k], m)])
  {
    hide Agrees, Reachable, Go, Can, Lent;
    WireOf1(s, k, care);
    CallsGrow(s.wires[k], m);
    SameLent(s.wires[k], Go(s.wires[k], m));
    OneWireLent(s.core, s.wires, k, Go(s.wires[k], m));
  }

  lemma ActLent(s: Stack, e: Event, from: Option<nat>, care: bool)
    requires Agrees(s, care) && Lent(s.core, s.wires) && Comes(s, e, from)
    ensures Lent(Step(s.core, e), Handled(s.wires, from))
  {
    hide Agrees, Reachable, Step, Go, Can, Lent, Handled, Comes;
    ComesHandle(s, e, from);
    if from.Some? { WireOf1(s, from.value, care); }
    EventLent(s.core, s.wires, e, from);
  }

  lemma InApp(s: Stack, care: bool)
    requires Agrees(s, care) && !s.app.Resting?
    ensures Comes(s, s.app.event, s.app.from) && s.app.conn in s.wires && Hands(s.core, s.app.event).Some?
  {
  }

  lemma DeliverLent(s: Stack, care: bool)
    requires Agrees(s, care) && Lent(s.core, s.wires) && Can1(s, Deliver)
    ensures Lent(Go1(s, Deliver).core, Go1(s, Deliver).wires)
  {
    hide Agrees, Reachable, Step, Lent, Handled, Comes, Hands, Go, Can;
    var k, from := s.app.conn, s.app.from;
    var id := s.wires[k].lock.id;
    var e := WithWire(s.app.event, Some(id));
    var wires := s.wires[k := Go(s.wires[k], Commit(id))];
    InApp(s, care);
    SameEvent(s, s.app.event, from, Some(id));
    MoveLent(s, k, Commit(id), care);
    ComesHandle(s, e, from);
    WireOf1(s, k, care);
    ReachMore(s.wires[k], Commit(id));
    CommitOpen(s.wires[k], id);
    StillHandles(s.core, s.wires, k, Go(s.wires[k], Commit(id)), e, from);
    if from.Some? { WireOf1(s, from.value, care); }
    EventLent(s.core, wires, e, from);
  }

  lemma StillHandles(c: Core, wires: map<nat, Wire>, k: nat, d: Wire, e: Event, from: Option<nat>)
    requires FromCall(c, wires, e, from) && k in wires
    requires d.calls == wires[k].calls && d.handled == wires[k].handled && d.callsOpen == wires[k].callsOpen
    ensures FromCall(c, wires[k := d], e, from)
  {
  }

  // ----- Every state of the stack -----

  lemma {:induction false} WayKeeps(s: Stack, ms: seq<StackMove>, t: Stack, care: bool)
    requires Whole(s, care) && Way(s, ms, t, care)
    ensures Whole(t, care)
    decreases |ms|
  {
    hide Can1, Go1, CareOf, Agrees, AppCare, Lent;
    if ms != [] {
      LentKept(s, ms[0], care);
      CareKept(s, ms[0], care);
      CareAgrees(s, ms[0], care);
      WayKeeps(Go1(s, ms[0]), ms[1..], t, care);
    }
  }

  lemma CareAgrees(s: Stack, m: StackMove, care: bool)
    requires Agrees(s, care) && AppCare(s, care) && Can1(s, m) && (care ==> CareOf(s, m))
    ensures Agrees(Go1(s, m), care)
  {
    hide Can1, Go1, CareOf, Agrees, Considerate;
    AgreesKept(s, m, care);
  }

  lemma StartWhole(configured: set<string>, allowWrites: bool, care: bool)
    ensures Whole(Start(configured, allowWrites), care)
  {
    var c := AgentSteps.Fresh(configured, allowWrites);
    assert Duties.Load(c) == multiset{};
  }

  lemma Reached(configured: set<string>, allowWrites: bool, ms: seq<StackMove>, s: Stack, care: bool)
    requires Way(Start(configured, allowWrites), ms, s, care)
    ensures Agrees(s, care) && Lent(s.core, s.wires)
  {
    hide Way, Agrees, AppCare, Lent, Start;
    StartWhole(configured, allowWrites, care);
    WayKeeps(Start(configured, allowWrites), ms, s, care);
  }

  // ----- Exactly one answer, end to end -----

  /** In every state the stack reaches, every request an agent ever made is in exactly one place: on
      the incoming stream, in a task, on its way to the app, open in the core (on a card or in
      running work), settled by the core, or answered by its connection. So it is answered at most
      once, and it is answered once it is nowhere else. */
  lemma EveryRequestIsAnsweredOnce(configured: set<string>, allowWrites: bool, ms: seq<StackMove>, s: Stack, k: nat, h: nat)
    requires Way(Start(configured, allowWrites), ms, s, false)
    requires k in s.wires && h < |s.wires[k].heard| && s.wires[k].heard[h].Ask?
    ensures var w, t := s.wires[k], Token(k, h);
            && w.taken <= |w.incoming| && w.handled <= |w.calls|
            && WireTokens.InStream(w)[t] + Sum(w.tasks, WireTokens.OfTask)[t] + WireTokens.Unhandled(w)[t]
               + Duties.Open(s.core)[Duties.AnswerTo(t)] + Duties.Settled(s.core)[Duties.AnswerTo(t)]
               + WireTokens.Answered(w)[t] == 1
  {
    hide Way, Start, Agrees, Reachable, Sum;
    Reached(configured, allowWrites, ms, s, false);
    WireOf1(s, k, false);
    WireTokens.EveryRequestIsSomewhere(s.wires[k], h);
    assert Duties.Load(s.core)[Duties.AnswerTo(Token(k, h))] == LentBy(s.wires, Token(k, h));
  }

  // ----- Nothing outlives its connection -----

  /** Once the app has handled the end of a connection, no agent holds the connection; so no thread has
      a session on it, and none is at work on it, whatever was sent and whenever: also a prompt sent
      after the reader drained its waiters. */
  lemma NothingOutlivesItsConnection(configured: set<string>, allowWrites: bool, ms: seq<StackMove>, s: Stack, k: nat, p: nat)
    requires Way(Start(configured, allowWrites), ms, s, false)
    requires k in s.wires && p < s.wires[k].handled && p < |s.wires[k].calls| && s.wires[k].calls[p].call.ClosedCall?
    ensures forall a :: a in s.core.slots ==> s.core.slots[a] != Ready(k)
    ensures forall i :: 0 <= i < |s.core.threads| && (s.core.threads[i].session.Some? || s.core.threads[i].status.Running?) ==>
              Connection(s.core, s.core.threads[i].agent).Some? && Connection(s.core, s.core.threads[i].agent) != Some(k)
  {
    hide Way, Start, Reachable, AppOk, Matches, AgentWires.Wired;
    Reached(configured, allowWrites, ms, s, false);
    assert !NotClosed(s.wires[k]);
    forall i | 0 <= i < |s.core.threads| && (s.core.threads[i].session.Some? || s.core.threads[i].status.Running?)
      ensures Connection(s.core, s.core.threads[i].agent).Some? && Connection(s.core, s.core.threads[i].agent) != Some(k)
    {
      assert AgentLinks.Tied(s.core.slots, s.core.threads[i]);
    }
  }

  // ----- One prompt at a time, to its end -----

  /** A prompt of the thread at `i` that is out on its agent's connection. */
  ghost predicate OutOf(s: Stack, i: nat, id: nat, session: string)
    requires i < |s.core.threads|
  {
    var t := s.core.threads[i];
    && Connection(s.core, t.agent).Some?
    && var k := Connection(s.core, t.agent).value;
       && k in s.wires && Out(s.wires[k], id, session)
       && Flight(k, id, session) in s.core.flights && s.core.flights[Flight(k, id, session)] == t.id
  }

  /** With considerate agents and users: a thread works exactly while a prompt of its own is out on its
      agent's connection. There is never a second one, it is of the thread's session, and its end is
      still to come: the prompt waits for its answer or for the router, or its end is among the calls
      the app has not handled yet. And nobody else's prompt is out in the thread's session. */
  lemma WorkHasOnePromptOut(configured: set<string>, allowWrites: bool, ms: seq<StackMove>, s: Stack, i: nat)
    requires Way(Start(configured, allowWrites), ms, s, true)
    requires i < |s.core.threads|
    ensures var t := s.core.threads[i];
            && (t.status.Running? <==> exists id, session :: OutOf(s, i, id, session))
            && (forall id, r, jd, q :: OutOf(s, i, id, r) && OutOf(s, i, jd, q) ==> id == jd)
            && (forall id, session :: OutOf(s, i, id, session) ==>
                  t.session == Some(session) && StillToCome(s.wires[Connection(s.core, t.agent).value], id))
            && (forall k, id :: Connection(s.core, t.agent) == Some(k) && t.session.Some? ==>
                  k in s.wires && (Out(s.wires[k], id, t.session.value) ==> OutOf(s, i, id, t.session.value)))
  {
    hide Way, Start, Reachable, AppOk, NotClosed, Out, StillToCome, AgentWires.Wired;
    Reached(configured, allowWrites, ms, s, true);
    var t := s.core.threads[i];
    assert AgentTurns.Sound(s.core);
    AgentTurns.ThreadInTurn(s.core, i);
    if Connection(s.core, t.agent).Some? {
      var k := Connection(s.core, t.agent).value;
      assert Matches(s.core.flights.Keys, s.wires[k], k);
      forall id, session | OutOf(s, i, id, session)
        ensures AgentTurns.OfTurn(s.core, t, Flight(k, id, session)) && StillToCome(s.wires[k], id)
      {
        OutComes(s.wires[k], id, session);
      }
      if t.status.Running? {
        var f :| AgentTurns.OfTurn(s.core, t, f);
        assert f == Flight(k, f.id, f.session);
        assert OutOf(s, i, f.id, f.session);
      }
      forall id | t.session.Some? && Out(s.wires[k], id, t.session.value) ensures OutOf(s, i, id, t.session.value) {
        assert Flight(k, id, t.session.value) in s.core.flights;
      }
    }
  }

  /** The prompt is running on its connection, or the app has not handled its end yet. */
  ghost predicate StillToCome(w: Wire, id: nat) {
    || id in w.prompts
    || exists p :: w.handled <= p < |w.calls| && w.calls[p].call.TurnEndedCall? && w.calls[p].call.id == id
  }

  lemma OutComes(w: Wire, id: nat, session: string)
    requires Reachable(w) && Out(w, id, session)
    ensures StillToCome(w, id)
  {
    hide Reachable;
    OutIsSomewhere(w, id, session);
  }
}
