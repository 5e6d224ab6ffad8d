/** The whole stack: the core on its thread, and every connection's tasks beside it. While the core
    is inside `start_prompt`, the readers, routers and writers of all connections go on. */
module Stacks {
  import opened Wrappers
  import opened AgentTypes
  import opened AgentSteps
  import opened AgentRuns
  import opened Handing
  import opened Wires
  import AgentMoves

  /** Where the app's thread is: between events, inside `start_prompt` for an event, or after a
      prompt that could not be sent. `from` is the connection whose call the event is. */
  datatype App =
    | Resting
    | Prompting(conn: nat, session: string, event: Event, from: Option<nat>)
    | Refused(conn: nat, session: string, event: Event, from: Option<nat>)

  datatype Stack = Stack(core: Core, wires: map<nat, Wire>, attached: set<nat>, app: App)

  datatype StackMove =
    | Dial(conn: nat, caps: Caps)
    | Aside(conn: nat, move: Move)
    | Act(event: Event, from: Option<nat>)
    | Pick(event: Event, from: Option<nat>)
    | Talk(move: Move)
    | Deliver
    | GiveUp
    | Again
    | Settle

  function Start(configured: set<string>, allowWrites: bool): Stack {
    Stack(AgentSteps.Fresh(configured, allowWrites), map[], {}, Resting)
  }

  /** What goes on beside the app's thread: everything but prompts and the handling of calls. */
  predicate Background(w: Wire, m: Move) {
    match m
    case LockPrompts(_) => false
    case Begin(session) => session.None?
    case Register(id) => id in w.sends && w.sends[id].session.None?
    case Post(id) => id in w.sends && w.sends[id].session.None?
    case Unregister(id) => id in w.sends && w.sends[id].session.None?
    case Commit(_) => false
    case Handle => false
    case _ => true
  }

  /** Where an event comes from: a call is the next one of its connection, which the agent's slot
      holds; after the connection's end only writes that were still being looked up come. */
  ghost predicate Comes(s: Stack, e: Event, from: Option<nat>) {
    match from
    case None => !e.Call?
    case Some(k) =>
      && e.Call? && k in s.wires && k in s.attached
      && var w := s.wires[k];
         && w.callsOpen && w.handled < |w.calls| && e.call == w.calls[w.handled].call
         && (Connection(s.core, e.agent) == Some(k) || (AgentMoves.Late(s.core, e.agent) && e.call.WriteCall?))
  }

  /** The connection a started agent brings is one that nobody had. */
  ghost predicate Brings(s: Stack, e: Event) {
    e.AgentStarted? && e.conn.Some? ==>
      e.conn.value in s.wires && e.conn.value !in s.attached && s.wires[e.conn.value].callsOpen
  }

  ghost predicate Can1(s: Stack, m: StackMove) {
    match m
    case Dial(k, _) => k !in s.wires
    case Aside(k, move) =>
      && k in s.wires && Can(s.wires[k], move) && Background(s.wires[k], move)
      && (move.DropCalls? ==> forall a :: a in s.core.slots ==> s.core.slots[a] != Ready(k))
    case Act(e, from) => s.app.Resting? && e == WithWire(e, None) && Comes(s, e, from) && Brings(s, e) && Hands(s.core, e) == None
    case Pick(e, from) =>
      && s.app.Resting? && e == WithWire(e, None) && Comes(s, e, from) && Hands(s.core, e).Some?
      && Hands(s.core, e).value.0 in s.wires && s.wires[Hands(s.core, e).value.0].lock.Free?
    case Talk(move) =>
      && s.app.Prompting? && s.app.conn in s.wires && Can(s.wires[s.app.conn], move)
      && (move == Begin(Some(s.app.session)) || ((move.Register? || move.Post?) && s.wires[s.app.conn].lock == HeldBy(move.id)))
    case Deliver =>
      s.app.Prompting? && s.app.conn in s.wires && s.wires[s.app.conn].lock.HeldBy?
      && Can(s.wires[s.app.conn], Commit(s.wires[s.app.conn].lock.id))
    case GiveUp =>
      s.app.Prompting? && s.app.conn in s.wires && s.wires[s.app.conn].lock.HeldBy?
      && Can(s.wires[s.app.conn], Unregister(s.wires[s.app.conn].lock.id))
    case Again => s.app.Refused? && s.app.conn in s.wires && s.wires[s.app.conn].lock.Free?
    case Settle => s.app.Refused?
  }

  ghost function Handled(wires: map<nat, Wire>, from: Option<nat>): map<nat, Wire> {
    match from
    case Some(k) => if k in wires && Can(wires[k], Handle) then wires[k := Go(wires[k], Handle)] else wires
    case None => wires
  }

  function Attached(attached: set<nat>, e: Event): set<nat> {
    if e.AgentStarted? && e.conn.Some? then attached + {e.conn.value} else attached
  }

  ghost function Go1(s: Stack, m: StackMove): Stack
    requires Can1(s, m)
  {
    match m
    case Dial(k, caps) => s.(wires := s.wires[k := Wires.Fresh(k, caps)])
    case Aside(k, move) => s.(wires := s.wires[k := Go(s.wires[k], move)])
    case Act(e, from) => Stack(Step(s.core, e), Handled(s.wires, from), Attached(s.attached, e), Resting)
    case Pick(e, from) =>
      var (k, session) := Hands(s.core, e).value;
      s.(wires := s.wires[k := Go(s.wires[k], LockPrompts(session))], app := Prompting(k, session, e, from))
    case Talk(move) => s.(wires := s.wires[s.app.conn := Go(s.wires[s.app.conn], move)])
    case Deliver =>
      var k, e := s.app.conn, s.app.event;
      var id := s.wires[k].lock.id;
      s.(core := Step(s.core, WithWire(e, Some(id))), app := Resting,
         wires := Handled(s.wires[k := Go(s.wires[k], Commit(id))], s.app.from))
    case GiveUp =>
      var k := s.app.conn;
      s.(wires := s.wires[k := Go(s.wires[k], Unregister(s.wires[k].lock.id))],
         app := Refused(k, s.app.session, s.app.event, s.app.from))
    case Again =>
      var k := s.app.conn;
      s.(wires := s.wires[k := Go(s.wires[k], LockPrompts(s.app.session))],
         app := Prompting(k, s.app.session, s.app.event, s.app.from))
    case Settle => s.(core := Step(s.core, s.app.event), wires := Handled(s.wires, s.app.from), app := Resting)
  }

  ghost predicate CareOf(s: Stack, m: StackMove) {
    match m
    case Act(e, _) => Considerate(s.core, e)
    case Pick(e, _) => Considerate(s.core, e)
    case _ => true
  }

  /** The moves lead from `s` to `t`; `care` asks for considerate events. */
  ghost predicate Way(s: Stack, ms: seq<StackMove>, t: Stack, care: bool)
    decreases |ms|
  {
    if ms == [] then s == t
    else Can1(s, ms[0]) && (care ==> CareOf(s, ms[0])) && Way(Go1(s, ms[0]), ms[1..], t, care)
  }
}
