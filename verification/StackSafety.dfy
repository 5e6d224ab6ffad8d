/** The core and its connections agree on what is under way, in every state they reach together. */
module StackSafety {
  import opened Wrappers
  import opened AgentTypes
  import opened AgentSteps
  import opened AgentRuns
  import opened Handing
  import opened Wires
  import opened WireOut
  import opened Stacks
  import AgentMoves
  import Turning = AgentTurns
  import AgentSafety
  import AgentWires
  import AgentLinks
  import WireTurns
  import WireTokens

  /** The core's prompts in flight on a connection are those the connection has out. */
  ghost predicate Matches(flights: set<Flight>, w: Wire, k: nat) {
    forall id, session :: Flight(k, id, session) in flights <==> Out(w, id, session)
  }

  /** The connections that agents hold are open, and agree with the core. */
  ghost predicate SlotsOk(slots: map<string, Slot>, attached: set<nat>, wires: map<nat, Wire>, flights: set<Flight>) {
    forall a :: a in slots && slots[a].Ready? ==>
      var k := slots[a].conn;
      k in attached && k in wires && wires[k].callsOpen && NotClosed(wires[k]) && Matches(flights, wires[k], k)
  }

  /** Connections are as they can be; unused until an agent has them; locked only by the app. */
  ghost predicate WiresOk(wires: map<nat, Wire>, attached: set<nat>, app: App) {
    forall k :: k in wires ==>
      && wires[k].conn == k && Reachable(wires[k])
      && (k !in attached ==> Unused(wires[k]))
      && (!(app.Prompting? && app.conn == k) ==> wires[k].lock.Free?)
  }

  predicate LockIs(w: Wire, session: string) {
    w.lock == Held(session) || (w.lock.HeldBy? && w.lock.id in w.sends && w.sends[w.lock.id].session == Some(session))
  }

  ghost predicate AppOk(s: Stack) {
    !s.app.Resting? ==>
      && s.app.conn in s.wires && s.app.event == WithWire(s.app.event, None)
      && Hands(s.core, s.app.event) == Some((s.app.conn, s.app.session))
      && Comes(s, s.app.event, s.app.from)
      && (s.app.Prompting? ==> LockIs(s.wires[s.app.conn], s.app.session))
  }

  ghost predicate CoreOk(c: Core, care: bool) {
    Ids(c) && AgentWires.Tight(c) && (care ==> Turning.Turns(c))
  }

  ghost predicate Agrees(s: Stack, care: bool) {
    && (forall k :: k in s.attached ==> k in s.wires)
    && (forall f :: f in s.core.flights.Keys ==> f.conn in s.attached)
    && WiresOk(s.wires, s.attached, s.app)
    && SlotsOk(s.core.slots, s.attached, s.wires, s.core.flights.Keys)
    && AppOk(s)
    && CoreOk(s.core, care)
  }

  // ----- An event of the core -----

  /** What a handled event does not break: the event comes from where it says, and its prompt, if it
      hands one over, is one nobody had. */
  lemma EventIsProper(s: Stack, e: Event, from: Option<nat>)
    requires Agrees(s, false) && Comes(s, e, from) && Brings(s, e)
    ensures ProperEvent(s.core, e)
  {
    hide AgentWires.Tight, WireOut.NotClosed, Matches, AppOk, Hands;
    match e
    case AgentStarted(agent, task, conn) =>
      if conn.Some? {
        forall a | a in s.core.slots ensures s.core.slots[a] != Ready(conn.value) {
          assert s.core.slots[a].Ready? ==> s.core.slots[a].conn in s.attached;
        }
      }
    case Call(agent, call, wire) => NextToken(s.wires[from.value]);
    case _ =>
  }

  /** The core's invariants after the event. */
  lemma EventCore(c: Core, e: Event, care: bool)
    requires CoreOk(c, care) && ProperEvent(c, e) && (care ==> Considerate(c, e) && Timely(c, e))
    ensures CoreOk(Step(c, e), care)
  {
    hide Step, AgentWires.Tight, Turning.Turns, AgentMoves.Do, ProperEvent, Considerate, Timely, Ids;
    forall v, m | Ids(v) && AgentWires.Tight(v) && AgentMoves.Good(v, m, AgentWires.WithCare) ensures AgentWires.Tight(AgentMoves.Do(v, m)) {
      AgentWires.TightKept(v, m);
    }
    AgentSafety.StepKeeps(AgentWires.Tight, c, e, AgentWires.WithCare);
    if care {
      forall v, m | Ids(v) && Turning.Sound(v) && AgentMoves.Good(v, m, Turning.FullCare) ensures Turning.Sound(AgentMoves.Do(v, m)) {
        Turning.SoundKept(v, m);
      }
      AgentSafety.StepKeeps(Turning.Sound, c, e, Turning.FullCare);
    }
  }

  /** The prompt whose end the event is. */
  function EndedBy(c: Core, e: Event): set<Flight> {
    match e
    case Call(agent, TurnEndedCall(session, id, _), _) =>
      (match Connection(c, agent) case Some(conn) => {Flight(conn, id, session)} case None => {})
    case _ => {}
  }

  /** An event that hands nothing over. */
  lemma RemainingIs(c: Core, e: Event)
    ensures Remaining(c, e) + HandedFlight(Hands(c, e), None) == c.flights.Keys - EndedBy(c, e)
  {
    hide Hands;
  }

  /** The connection whose call is handled goes on agreeing with the core. */
  lemma HandledAgrees(w: Wire, k: nat, flights: set<Flight>, c: Core, e: Event)
    requires Reachable(w) && Can(w, Handle) && e.Call? && e.call == w.calls[w.handled].call
    requires Connection(c, e.agent) == Some(k) && NotClosed(w) && Matches(flights, w, k)
    ensures Matches(flights - EndedBy(c, e), Go(w, Handle), k)
    ensures !e.call.ClosedCall? ==> NotClosed(Go(w, Handle))
  {
    hide Reachable, Go, Out, NotClosed;
    HandleOut(w);
    if e.call.TurnEndedCall? {
      EndIsOut(w);
      OneSession(w, e.call.id, e.call.session);
    }
  }

  lemma OneSession(w: Wire, id: nat, session: string)
    requires Out(w, id, session)
    ensures forall s :: Out(w, id, s) ==> s == session
  {
  }

  lemma OthersAgree(flights: set<Flight>, w: Wire, j: nat, c: Core, e: Event)
    requires Matches(flights, w, j) && (e.Call? ==> Connection(c, e.agent) != Some(j))
    ensures Matches(flights - EndedBy(c, e), w, j)
  {
  }

  lemma FewSlots(c: Core, e: Event, a: string)
    requires Ids(c) && a in Step(c, e).slots && Step(c, e).slots[a].Ready?
    ensures (a in c.slots && c.slots[a] == Step(c, e).slots[a])
            || (e.AgentStarted? && e.conn == Some(Step(c, e).slots[a].conn))
  {
    hide Step, AgentStartedStep;
    StepFlights(c, e);
    if e.AgentStarted? {
      AgentStartedLeaves(c, e.agent, e.task, e.conn);
      StartedStep(c, e);
    }
  }

  lemma StartedStep(c: Core, e: Event)
    requires e.AgentStarted?
    ensures Step(c, e) == AgentStartedStep(c, e.agent, e.task, e.conn)
  {
  }

  lemma ClosedSlot(c: Core, e: Event)
    requires e.Call? && e.call.ClosedCall?
    ensures e.agent !in Step(c, e).slots
  {
    SweepLeaves(c.(slots := c.slots - {e.agent}), AgentGone(e.agent));
  }

  /** The event is the next call of its connection, if it is a call. */
  ghost predicate FromCall(c: Core, wires: map<nat, Wire>, e: Event, from: Option<nat>) {
    match from
    case None => !e.Call?
    case Some(k) =>
      && e.Call? && k in wires && Can(wires[k], Handle) && e.call == wires[k].calls[wires[k].handled].call
      && (Connection(c, e.agent) == from || (AgentMoves.Late(c, e.agent) && e.call.WriteCall?))
  }

  ghost predicate NewConn(wires: map<nat, Wire>, k: nat, flights: set<Flight>) {
    k in wires && wires[k].callsOpen && Unused(wires[k]) && forall f :: f in flights ==> f.conn != k
  }

  /** After an event: the connections agents hold are open and agree with the core again. `flights`
      are the prompts in flight with the one the event hands over. */
  lemma SlotsAfter(c: Core, wires: map<nat, Wire>, attached: set<nat>, flights: set<Flight>, e: Event, from: Option<nat>, d: Core)
    requires Ids(c) && AgentWires.Apart(c.slots) && SlotsOk(c.slots, attached, wires, flights) && d == Step(c, e)
    requires forall k :: k in wires ==> Reachable(wires[k])
    requires d.flights.Keys == flights - EndedBy(c, e)
    requires FromCall(c, wires, e, from)
    requires e.AgentStarted? && e.conn.Some? ==> NewConn(wires, e.conn.value, flights)
    ensures SlotsOk(d.slots, Attached(attached, e), Handled(wires, from), d.flights.Keys)
  {
    hide Step, Reachable, Go, Can, Matches, NotClosed, Unused;
    forall a | a in d.slots && d.slots[a].Ready?
      ensures var k, ws := d.slots[a].conn, Handled(wires, from);
              && k in Attached(attached, e) && k in ws && ws[k].callsOpen && NotClosed(ws[k]) && Matches(d.flights.Keys, ws[k], k)
    {
      FewSlots(c, e, a);
      if a in c.slots && c.slots[a] == d.slots[a] {
        SlotStays(c, wires, attached, flights, e, from, d, a);
      } else {
        NewSlot(wires[e.conn.value], e.conn.value, flights, c, e);
      }
    }
  }

  lemma NewSlot(w: Wire, k: nat, flights: set<Flight>, c: Core, e: Event)
    requires e.AgentStarted? && Unused(w) && (forall f :: f in flights ==> f.conn != k)
    ensures NotClosed(w) && Matches(flights - EndedBy(c, e), w, k)
  {
  }

  lemma SlotStays(c: Core, wires: map<nat, Wire>, attached: set<nat>, flights: set<Flight>, e: Event, from: Option<nat>, d: Core, a: string)
    requires AgentWires.Apart(c.slots) && SlotsOk(c.slots, attached, wires, flights) && d == Step(c, e)
    requires forall k :: k in wires ==> Reachable(wires[k])
    requires d.flights.Keys == flights - EndedBy(c, e)
    requires FromCall(c, wires, e, from)
    requires a in d.slots && d.slots[a].Ready? && a in c.slots && c.slots[a] == d.slots[a]
    ensures var k, ws := d.slots[a].conn, Handled(wires, from);
            && k in Attached(attached, e) && k in ws && ws[k].callsOpen && NotClosed(ws[k]) && Matches(d.flights.Keys, ws[k], k)
  {
    hide Step, Reachable, Go, Can, Matches, NotClosed;
    var k := d.slots[a].conn;
    if from == Some(k) {
      HandleOpen(wires[k]);
      if e.agent == a {
        if e.call.ClosedCall? {
          ClosedSlot(c, e);
        }
        HandledAgrees(wires[k], k, flights, c, e);
      } else {
        LateWrite(wires[k], k, flights, c, e, a);
      }
    } else {
      OthersAgree(flights, wires[k], k, c, e);
    }
  }

  lemma HandleOpen(w: Wire)
    requires Can(w, Handle)
    ensures Go(w, Handle).callsOpen == w.callsOpen
  {
  }

  /** A late write of a connection that some agent holds would not be late. */
  lemma LateWrite(w: Wire, k: nat, flights: set<Flight>, c: Core, e: Event, a: string)
    requires AgentWires.Apart(c.slots) && a in c.slots && c.slots[a] == Ready(k) && e.Call? && e.agent != a
    requires Connection(c, e.agent) == Some(k) || (AgentMoves.Late(c, e.agent) && e.call.WriteCall?)
    requires Can(w, Handle) && e.call == w.calls[w.handled].call && NotClosed(w) && Matches(flights, w, k)
    ensures NotClosed(Go(w, Handle)) && Matches(flights - EndedBy(c, e), Go(w, Handle), k)
  {
    hide Go, Out, NotClosed;
    HandleOut(w);
  }

  // ----- Connections after an event -----

  lemma WiresAfter(wires: map<nat, Wire>, attached: set<nat>, app: App, from: Option<nat>, e: Event)
    requires forall k :: k in wires ==>
               && wires[k].conn == k && Reachable(wires[k]) && wires[k].lock.Free?
               && (k !in attached ==> Unused(wires[k]))
    requires from.Some? ==> from.value in attached && from.value in wires && Can(wires[from.value], Handle)
    ensures WiresOk(Handled(wires, from), Attached(attached, e), Resting)
    ensures forall k :: k in wires ==> k in Handled(wires, from)
  {
    hide Reachable, Go, Can, Unused;
    if from.Some? {
      ReachMore(wires[from.value], Handle);
      HandleLock(wires[from.value]);
    }
  }

  lemma HandleLock(w: Wire)
    requires Can(w, Handle)
    ensures Go(w, Handle).lock == w.lock
  {
  }

  // ----- Act and Settle: events that hand nothing over -----

  lemma TimelyCall(s: Stack, e: Event, from: Option<nat>)
    requires Agrees(s, false) && Comes(s, e, from) && WireOf(e).None?
    ensures Timely(s.core, e)
  {
    hide AgentWires.Tight, NotClosed, AppOk, Hands, Reachable;
    if e.Call? && e.call.TurnEndedCall? {
      var k := from.value;
      EndIsOut(s.wires[k]);
      assert Matches(s.core.flights.Keys, s.wires[k], k);
      assert Flight(k, e.call.id, e.call.session) in s.core.flights.Keys;
    }
  }

  lemma QuietEvent(s: Stack, e: Event, from: Option<nat>, care: bool)
    requires Agrees(s, care) && Comes(s, e, from) && Brings(s, e) && WireOf(e).None?
    requires forall k :: k in s.wires ==> s.wires[k].lock.Free?
    requires care ==> Considerate(s.core, e)
    ensures Agrees(Stack(Step(s.core, e), Handled(s.wires, from), Attached(s.attached, e), Resting), care)
  {
    hide Step, Reachable, Go, Can, NotClosed, Unused, Matches, Considerate, Timely, ProperEvent, Hands, AgentWires.Tight, Turning.Turns, Ids,
         Remaining, HandedFlight;
    var d := Step(s.core, e);
    EventIsProper(s, e, from);
    TimelyCall(s, e, from);
    EventCore(s.core, e, care);
    StepFlights(s.core, e);
    RemainingIs(s.core, e);
    assert d.flights.Keys == s.core.flights.Keys - EndedBy(s.core, e);
    TightApart(s.core);
    ComesHandle(s, e, from);
    SlotsAfter(s.core, s.wires, s.attached, s.core.flights.Keys, e, from, d);
    WiresAfter(s.wires, s.attached, s.app, from, e);
  }

  lemma TightApart(c: Core)
    requires AgentWires.Tight(c)
    ensures AgentWires.Apart(c.slots)
  {
  }

  lemma ComesHandle(s: Stack, e: Event, from: Option<nat>)
    requires Comes(s, e, from)
    ensures FromCall(s.core, s.wires, e, from) && (from.Some? ==> from.value in s.attached)
  {
  }

  // ----- Deliver: an event with the prompt it hands over -----

  /** Before the commit the prompt is nobody's; after it, it is the connection's and the event's. */
  lemma CommitSlots(s: Stack, k: nat, id: nat, session: string)
    requires Agrees(s, false) && k in s.wires && Can(s.wires[k], Commit(id)) && s.wires[k].sends[id].session == Some(session)
    ensures SlotsOk(s.core.slots, s.attached, s.wires[k := Go(s.wires[k], Commit(id))], s.core.flights.Keys + {Flight(k, id, session)})
  {
    hide Go, Can, Reachable, NotClosed, Out, AppOk, CoreOk;
    var w, wires := s.wires[k], s.wires[k := Go(s.wires[k], Commit(id))];
    var flights := s.core.flights.Keys + {Flight(k, id, session)};
    WireTurns.AlwaysWhole(w);
    HandledBound(w);
    CommitOut(w, id, session);
    CommitOpen(w, id);
    forall a | a in s.core.slots && s.core.slots[a].Ready?
      ensures var j := s.core.slots[a].conn;
              && j in s.attached && j in wires && wires[j].callsOpen && NotClosed(wires[j]) && Matches(flights, wires[j], j)
    {
    }
  }

  lemma HandledBound(w: Wire)
    requires Reachable(w)
    ensures w.handled <= |w.calls|
  {
    hide Reachable;
    WireTokens.AlwaysConserved(w);
  }

  lemma CommitOpen(w: Wire, id: nat)
    requires Can(w, Commit(id))
    ensures Go(w, Commit(id)).callsOpen == w.callsOpen && Go(w, Commit(id)).lock.Free?
    ensures Go(w, Commit(id)).calls == w.calls && Go(w, Commit(id)).handled == w.handled
  {
  }

  /** The prompt's id is one that no prompt in flight has, so the event is timely. */
  lemma TimelyDeliver(s: Stack, e: Event, from: Option<nat>, k: nat, id: nat)
    requires Agrees(s, false) && Comes(s, e, from) && k in s.wires && Can(s.wires[k], Commit(id))
    requires Hands(s.core, e).Some? && Hands(s.core, e).value.0 == k && WireOf(e) == Some(id)
    ensures Timely(s.core, e)
  {
    hide AgentWires.Tight, NotClosed, AppOk, Reachable, Can, Go;
    var agent := HandingAgent(s.core, e);
    NewId(s, agent, k, id);
    if e.Call? {
      EndIsOut(s.wires[from.value]);
      assert Matches(s.core.flights.Keys, s.wires[from.value], from.value);
      assert Flight(from.value, e.call.id, e.call.session) in s.core.flights.Keys;
    }
  }

  lemma HandingAgent(c: Core, e: Event) returns (agent: string)
    requires Hands(c, e).Some?
    ensures Connection(c, agent) == Some(Hands(c, e).value.0)
    ensures e.Send? ==> First(c.threads, ById(e.id)).Some? && agent == c.threads[First(c.threads, ById(e.id)).value].agent
    ensures e.SessionOpened? ==> First(c.threads, ById(e.id)).Some? && agent == c.threads[First(c.threads, ById(e.id)).value].agent
    ensures e.Call? ==> e.call.TurnEndedCall? && agent == e.agent
    ensures e.Send? || e.SessionOpened? || e.Call?
  {
    match e
    case Send(id, _, _) => agent := c.threads[First(c.threads, ById(id)).value].agent;
    case SessionOpened(id, _, _, _) => agent := c.threads[First(c.threads, ById(id)).value].agent;
    case Call(a, _, _) => agent := a;
  }

  lemma NewId(s: Stack, agent: string, k: nat, id: nat)
    requires Agrees(s, false) && Connection(s.core, agent) == Some(k) && k in s.wires && Can(s.wires[k], Commit(id))
    ensures AgentMoves.NewWire(s.core, agent, id)
  {
    hide AgentWires.Tight, NotClosed, AppOk, Reachable;
    assert Matches(s.core.flights.Keys, s.wires[k], k);
    forall f | f in s.core.flights.Keys && f.conn == k ensures f.id != id {
      assert f == Flight(k, f.id, f.session);
      assert Out(s.wires[k], f.id, f.session);
    }
  }

  lemma DeliverKept(s: Stack, care: bool)
    requires Agrees(s, care) && Can1(s, Deliver) && (care ==> Considerate(s.core, s.app.event))
    ensures Agrees(Go1(s, Deliver), care)
  {
    hide Step, Reachable, Go, Can, NotClosed, Unused, Matches, Considerate, Timely, ProperEvent, Hands, AgentWires.Tight, Turning.Turns, Ids;
    var k, session, from := s.app.conn, s.app.session, s.app.from;
    var w := s.wires[k];
    var id := w.lock.id;
    var e := WithWire(s.app.event, Some(id));
    var wires := s.wires[k := Go(w, Commit(id))];
    var flights := s.core.flights.Keys + {Flight(k, id, session)};
    var d := Step(s.core, e);
    SameEvent(s, s.app.event, from, Some(id));
    EventIsProper(s, e, from);
    TimelyDeliver(s, e, from, k, id);
    SameConsiderate(s.core, s.app.event, Some(id));
    EventCore(s.core, e, care);
    StepFlights(s.core, e);
    CommitSlots(s, k, id, session);
    NotEnding(s, e, from, k, id, session);
    TightApart(s.core);
    ComesHandle(s, e, from);
    SlotHeld(s, k);
    CommitWires(s, k, id, from, e);
    SlotsAfter(s.core, wires, s.attached, flights, e, from, d);
    WiresAfter(wires, s.attached, s.app, from, e);
    assert Attached(s.attached, e) == s.attached;
  }

  /** The event is the same but for the prompt's id. */
  lemma SameEvent(s: Stack, e: Event, from: Option<nat>, wire: Option<nat>)
    requires Comes(s, e, from) && Hands(s.core, e).Some?
    ensures Comes(s, WithWire(e, wire), from) && Brings(s, WithWire(e, wire))
    ensures Hands(s.core, WithWire(e, wire)) == Hands(s.core, e) && WireOf(WithWire(e, wire)) == wire
    ensures !WithWire(e, wire).AgentStarted?
  {
  }

  lemma SameConsiderate(c: Core, e: Event, wire: Option<nat>)
    ensures Considerate(c, WithWire(e, wire)) <==> Considerate(c, e)
  {
  }

  /** What the event hands over is not what it ends. */
  lemma NotEnding(s: Stack, e: Event, from: Option<nat>, k: nat, id: nat, session: string)
    requires Agrees(s, false) && Comes(s, e, from) && Hands(s.core, e) == Some((k, session)) && WireOf(e) == Some(id)
    requires k in s.wires && Can(s.wires[k], Commit(id))
    ensures Remaining(s.core, e) + HandedFlight(Hands(s.core, e), WireOf(e))
            == (s.core.flights.Keys + {Flight(k, id, session)}) - EndedBy(s.core, e)
  {
    hide AgentWires.Tight, NotClosed, AppOk, Reachable, Matches;
    if e.Call? && e.call.TurnEndedCall? {
      EndIsOut(s.wires[from.value]);
      assert from == Some(k) ==> e.call.id != id;
    }
  }

  lemma CommitWires(s: Stack, k: nat, id: nat, from: Option<nat>, e: Event)
    requires Agrees(s, false) && s.app.Prompting? && s.app.conn == k && k in s.wires && Can(s.wires[k], Commit(id))
    requires FromCall(s.core, s.wires, e, from) && k in s.attached
    ensures var wires := s.wires[k := Go(s.wires[k], Commit(id))];
            && FromCall(s.core, wires, e, from)
            && forall j :: j in wires ==>
                 && wires[j].conn == j && Reachable(wires[j]) && wires[j].lock.Free? && (j !in s.attached ==> Unused(wires[j]))
  {
    hide Go, Reachable, Unused, CoreOk, SlotsOk, AppOk;
    ReachMore(s.wires[k], Commit(id));
    CommitOpen(s.wires[k], id);
  }

  lemma SlotHeld(s: Stack, k: nat)
    requires Agrees(s, false) && !s.app.Resting? && s.app.conn == k
    ensures k in s.attached
  {
    hide AgentWires.Tight, NotClosed, Matches, Reachable;
    var agent := HandingAgent(s.core, s.app.event);
    assert s.core.slots[agent] == Ready(k);
  }

  // ----- Moves of one connection -----

  lemma Carefree(s: Stack, care: bool)
    requires Agrees(s, care)
    ensures Agrees(s, false)
  {
  }

  /** A connection moves, and agrees with the core as before. */
  lemma OneWire(s: Stack, k: nat, d: Wire, app: App, care: bool)
    requires Agrees(s, care) && k in s.wires && Reachable(d) && d.conn == k && d.callsOpen == s.wires[k].callsOpen
    requires forall id, session :: Out(d, id, session) <==> Out(s.wires[k], id, session)
    requires NotClosed(s.wires[k]) ==> NotClosed(d)
    requires k !in s.attached ==> Unused(d)
    requires forall j :: j in s.wires && j != k && !(app.Prompting? && app.conn == j) ==> s.wires[j].lock.Free?
    requires !(app.Prompting? && app.conn == k) ==> d.lock.Free?
    requires AppOk(s.(wires := s.wires[k := d], app := app))
    ensures Agrees(s.(wires := s.wires[k := d], app := app), care)
  {
    hide Reachable, Out, NotClosed, Unused, AppOk, CoreOk;
    var t := s.(wires := s.wires[k := d], app := app);
    forall a | a in s.core.slots && s.core.slots[a].Ready?
      ensures var j := s.core.slots[a].conn;
              && j in t.attached && j in t.wires && t.wires[j].callsOpen && NotClosed(t.wires[j]) && Matches(t.core.flights.Keys, t.wires[j], j)
    {
      assert Matches(s.core.flights.Keys, s.wires[s.core.slots[a].conn], s.core.slots[a].conn);
    }
  }

  /** The waiting event goes on being what it was. */
  lemma StillComes(s: Stack, k: nat, d: Wire, e: Event, from: Option<nat>)
    requires Comes(s, e, from) && k in s.wires && (from == Some(k) ==> d.callsOpen)
    requires s.wires[k].calls <= d.calls && d.handled == s.wires[k].handled
    ensures Comes(s.(wires := s.wires[k := d]), e, from)
  {
  }

  lemma Opens(w: Wire, m: Move)
    requires Can(w, m) && !m.DropCalls?
    ensures Go(w, m).callsOpen == w.callsOpen
  {
    hide TakeOne, FinishTask, DrainFrom, HearOne, Wires.Forward;
    match m
    case Hear(message) => WireTurns.HearGrows(w, message);
    case Drain(order) => WireTurns.DrainGrows(w, order);
    case Take(finds) => WireReplies.TakeLeaves(w, finds);
    case Finish(k, before) => WireReplies.FinishLeaves(w, k, before);
    case EndRouter => ForwardOpens(w, |w.incoming|, |w.heard|);
    case _ =>
  }

  lemma ForwardOpens(w: Wire, arrival: nat, source: nat)
    ensures Wires.Forward(w, arrival, source, ClosedCall).callsOpen == w.callsOpen
  {
  }

  lemma AsideKept(s: Stack, k: nat, m: Move, care: bool)
    requires Agrees(s, care) && Can1(s, StackMove.Aside(k, m))
    ensures Agrees(Go1(s, StackMove.Aside(k, m)), care)
  {
    hide Go, Can, Reachable, Out, NotClosed, Unused, CoreOk, Hands, SlotsOk;
    var w, d := s.wires[k], Go(s.wires[k], m);
    WireTurns.AlwaysWhole(w);
    HandledBound(w);
    ReachMore(w, m);
    PromptsStay(w, m);
    CallsGrow(w, m);
    OutStays(w, d);
    Carefree(s, care);
    if !s.app.Resting? {
      if s.app.from == Some(k) {
        FromSlot(s);
        Opens(w, m);
      }
      StillComes(s, k, d, s.app.event, s.app.from);
    }
    if m.DropCalls? {
      DropKept(s, k, d, care);
    } else {
      Opens(w, m);
      OneWire(s, k, d, s.app, care);
    }
  }

  /** Nobody holds the connection whose calls are dropped. */
  lemma DropKept(s: Stack, k: nat, d: Wire, care: bool)
    requires Agrees(s, care) && k in s.wires && Reachable(d) && d.conn == k
    requires forall a :: a in s.core.slots ==> s.core.slots[a] != Ready(k)
    requires k !in s.attached ==> Unused(d)
    requires !(s.app.Prompting? && s.app.conn == k) ==> d.lock.Free?
    requires AppOk(s.(wires := s.wires[k := d]))
    ensures Agrees(s.(wires := s.wires[k := d]), care)
  {
    hide Reachable, Out, NotClosed, Unused, AppOk, CoreOk;
  }

  lemma FromSlot(s: Stack)
    requires Agrees(s, false) && !s.app.Resting? && s.app.from.Some?
    ensures exists a :: a in s.core.slots && s.core.slots[a] == Ready(s.app.from.value)
  {
    hide AgentWires.Tight, NotClosed, Matches, Reachable;
    var agent := HandingAgent(s.core, s.app.event);
    assert Connection(s.core, agent) == s.app.from;
    assert s.core.slots[agent] == Ready(s.app.from.value);
  }

  /** The prompt under way goes on. */
  lemma TalkKept(s: Stack, m: Move, app: App, care: bool)
    requires Agrees(s, care) && !s.app.Resting? && app.Prompting? && app == Prompting(s.app.conn, s.app.session, s.app.event, s.app.from)
    requires Can(s.wires[s.app.conn], m)
    requires (s.app.Refused? && m == LockPrompts(s.app.session))
             || (s.app.Prompting? && (m == Begin(Some(s.app.session))
                                      || ((m.Register? || m.Post?) && s.wires[s.app.conn].lock == HeldBy(m.id))))
    ensures Agrees(s.(wires := s.wires[s.app.conn := Go(s.wires[s.app.conn], m)], app := app), care)
  {
    hide Can, Reachable, Out, NotClosed, Unused, CoreOk, Hands, SlotsOk, Comes;
    var k := s.app.conn;
    var w, d := s.wires[k], Go(s.wires[k], m);
    WireTurns.AlwaysWhole(w);
    HandledBound(w);
    ReachMore(w, m);
    TalkStays(w, m);
    CallsGrow(w, m);
    Carefree(s, care);
    SlotHeld(s, k);
    Opens(w, m);
    assert LockIs(d, s.app.session);
    if s.app.from == Some(k) { FromOpen(s); }
    StillComes(s, k, d, s.app.event, s.app.from);
    SameComes(s, s.(wires := s.wires[k := d]), s.(wires := s.wires[k := d], app := app), s.app.event, s.app.from);
    OneWire(s, k, d, app, care);
  }

  lemma FromOpen(s: Stack)
    requires AppOk(s) && !s.app.Resting? && s.app.from.Some?
    ensures s.app.from.value in s.wires && s.wires[s.app.from.value].callsOpen
  {
  }

  lemma SameComes(s: Stack, t: Stack, u: Stack, e: Event, from: Option<nat>)
    requires Comes(t, e, from) && u.core == t.core && u.wires == t.wires && u.attached == t.attached
    ensures Comes(u, e, from)
  {
  }

  lemma GiveUpKept(s: Stack, care: bool)
    requires Agrees(s, care) && Can1(s, GiveUp)
    ensures Agrees(Go1(s, GiveUp), care)
  {
    hide Can, Go, Reachable, Out, NotClosed, Unused, CoreOk, Hands, SlotsOk, Comes;
    var k := s.app.conn;
    var w := s.wires[k];
    var m := Unregister(w.lock.id);
    var d := Go(w, m);
    var app := Refused(k, s.app.session, s.app.event, s.app.from);
    WireTurns.AlwaysWhole(w);
    HandledBound(w);
    ReachMore(w, m);
    TalkStays(w, m);
    CallsGrow(w, m);
    Carefree(s, care);
    SlotHeld(s, k);
    Opens(w, m);
    UnregisterFrees(w, w.lock.id, s.app.session);
    if s.app.from == Some(k) { FromOpen(s); }
    StillComes(s, k, d, s.app.event, s.app.from);
    SameComes(s, s.(wires := s.wires[k := d]), s.(wires := s.wires[k := d], app := app), s.app.event, s.app.from);
    OneWire(s, k, d, app, care);
  }

  lemma UnregisterFrees(w: Wire, id: nat, session: string)
    requires Can(w, Unregister(id)) && w.lock == HeldBy(id) && LockIs(w, session)
    ensures Go(w, Unregister(id)).lock.Free?
  {
  }

  lemma PickKept(s: Stack, e: Event, from: Option<nat>, care: bool)
    requires Agrees(s, care) && Can1(s, Pick(e, from))
    ensures Agrees(Go1(s, Pick(e, from)), care)
  {
    hide Reachable, Out, NotClosed, Unused, CoreOk, SlotsOk, Comes, Hands, Can;
    var (k, session) := Hands(s.core, e).value;
    var w := s.wires[k];
    var m := LockPrompts(session);
    LockCan(w, session);
    var d := Go(w, m);
    var app := Prompting(k, session, e, from);
    Carefree(s, care);
    WireTurns.AlwaysWhole(w);
    HandledBound(w);
    ReachMore(w, m);
    TalkStays(w, m);
    CallsGrow(w, m);
    PickSlot(s, e, from, k);
    Opens(w, m);
    StillComes(s, k, d, e, from);
    SameComes(s, s.(wires := s.wires[k := d]), s.(wires := s.wires[k := d], app := app), e, from);
    OneWire(s, k, d, app, care);
  }

  lemma LockCan(w: Wire, session: string)
    requires w.lock.Free?
    ensures Can(w, LockPrompts(session))
  {
  }

  lemma PickSlot(s: Stack, e: Event, from: Option<nat>, k: nat)
    requires Agrees(s, false) && Comes(s, e, from) && Hands(s.core, e).Some? && Hands(s.core, e).value.0 == k
    ensures k in s.attached && (from == Some(k) ==> k in s.wires && s.wires[k].callsOpen)
  {
    hide AgentWires.Tight, NotClosed, Matches, Reachable;
    var agent := HandingAgent(s.core, e);
    assert s.core.slots[agent] == Ready(k);
  }

  lemma DialKept(s: Stack, k: nat, caps: Caps, care: bool)
    requires Agrees(s, care) && k !in s.wires
    ensures Agrees(s.(wires := s.wires[k := Wires.Fresh(k, caps)]), care)
  {
    hide Reachable, NotClosed, Unused, Matches, CoreOk, Hands;
    FreshReached(k, caps);
  }

  // ----- Any move -----

  lemma AgreesKept(s: Stack, m: StackMove, care: bool)
    requires Agrees(s, care) && Can1(s, m)
    requires care ==> CareOf(s, m) && (!s.app.Resting? ==> Considerate(s.core, s.app.event))
    ensures Agrees(Go1(s, m), care)
  {
    hide Agrees, Hands, Step, Considerate, Go, Can;
    match m
    case Dial(k, caps) => DialKept(s, k, caps, care);
    case Aside(k, move) => AsideKept(s, k, move, care);
    case Act(e, from) =>
      AllFree(s, care);
      QuietEvent(s, e, from, care);
    case Pick(e, from) => PickKept(s, e, from, care);
    case Talk(move) => TalkKept(s, move, s.app, care);
    case Deliver => DeliverKept(s, care);
    case GiveUp => GiveUpKept(s, care);
    case Again =>
      LockCan(s.wires[s.app.conn], s.app.session);
      TalkKept(s, LockPrompts(s.app.session), Prompting(s.app.conn, s.app.session, s.app.event, s.app.from), care);
    case Settle =>
      AllFree(s, care);
      RefusedOk(s, care);
      QuietEvent(s, s.app.event, s.app.from, care);
  }

  lemma AllFree(s: Stack, care: bool)
    requires Agrees(s, care) && !s.app.Prompting?
    ensures forall k :: k in s.wires ==> s.wires[k].lock.Free?
  {
  }

  lemma RefusedOk(s: Stack, care: bool)
    requires Agrees(s, care) && s.app.Refused?
    ensures Comes(s, s.app.event, s.app.from) && WireOf(s.app.event).None? && !s.app.event.AgentStarted?
    ensures Brings(s, s.app.event)
  {
  }
}
