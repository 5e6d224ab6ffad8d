/** One prompt at a time: a thread works exactly while one prompt of its own is in flight. */
module AgentTurns {
  import opened Wrappers
  import opened AgentTypes
  import opened AgentSteps
  import opened AgentMoves
  import opened AgentRuns
  import opened AgentEffects
  import opened AgentSafety
  import opened AgentLinks
  import AgentWires
  import Transcripts

  /** The prompts of a thread in flight on a connection. */
  function Flying(flights: map<Flight, nat>, conn: nat, thread: nat): set<Flight> {
    set f | f in flights && f.conn == conn && flights[f] == thread
  }

  ghost predicate One(fs: set<Flight>) { exists f :: fs == {f} }

  /** On its agent's connection, the thread's prompts in flight are those of its session; it works
      exactly while there is one, and one only. */
  ghost predicate InTurn(slots: map<string, Slot>, flights: map<Flight, nat>, t: Thread) {
    t.agent in slots && slots[t.agent].Ready? ==>
      && (forall f :: f in flights && f.conn == slots[t.agent].conn ==> (flights[f] == t.id <==> t.session == Some(f.session)))
      && var fs := Flying(flights, slots[t.agent].conn, t.id);
         if t.status.Running? then One(fs) else fs == {}
  }

  ghost predicate OwnSessions(ts: seq<Thread>) {
    forall i, j :: 0 <= i < j < |ts| && ts[i].session.Some? && ts[i].agent == ts[j].agent ==> ts[i].session != ts[j].session
  }

  /** Every prompt in flight is of a thread there is or was. */
  ghost predicate OfThreads(flights: map<Flight, nat>, nextThread: nat) {
    forall f :: f in flights ==> flights[f] <= nextThread
  }

  ghost predicate Turns(c: Core) {
    && OwnSessions(c.threads) && OfThreads(c.flights, c.nextThread)
    && (forall i :: 0 <= i < |c.threads| ==> InTurn(c.slots, c.flights, c.threads[i]))
  }

  /** With what it rests on. */
  ghost predicate Sound(c: Core) { AgentWires.Tight(c) && Turns(c) }

  const FullCare: Care := Care(true, true)

  // ----- What keeps a thread in turn -----

  lemma SameTurn(slots: map<string, Slot>, flights: map<Flight, nat>, t: Thread, u: Thread)
    requires InTurn(slots, flights, t) && u.agent == t.agent && u.id == t.id
    requires u.session == t.session && (u.status.Running? <==> t.status.Running?)
    ensures InTurn(slots, flights, u)
  {
  }

  /** Another thread's prompt goes. */
  lemma OthersEnd(slots: map<string, Slot>, flights: map<Flight, nat>, f: Flight, t: Thread)
    requires InTurn(slots, flights, t)
    requires t.agent in slots && slots[t.agent] == Ready(f.conn) ==> t.session != Some(f.session)
    ensures InTurn(slots, flights - {f}, t)
  {
    if t.agent in slots && slots[t.agent].Ready? {
      var k := slots[t.agent].conn;
      assert Flying(flights - {f}, k, t.id) == Flying(flights, k, t.id);
    }
  }

  /** Another thread's prompt comes. */
  lemma OthersPrompt(slots: map<string, Slot>, flights: map<Flight, nat>, f: Flight, owner: nat, t: Thread)
    requires InTurn(slots, flights, t) && f !in flights && owner != t.id
    requires t.agent in slots && slots[t.agent] == Ready(f.conn) ==> t.session != Some(f.session)
    ensures InTurn(slots, flights[f := owner], t)
  {
    if t.agent in slots && slots[t.agent].Ready? {
      var k := slots[t.agent].conn;
      assert Flying(flights[f := owner], k, t.id) == Flying(flights, k, t.id);
    }
  }

  /** The thread's agent is connected anew, or not at all. */
  lemma NewConnection(slots: map<string, Slot>, flights: map<Flight, nat>, t: Thread)
    requires !t.status.Running?
    requires t.agent in slots && slots[t.agent].Ready? ==> forall f :: f in flights ==> f.conn != slots[t.agent].conn
    ensures InTurn(slots, flights, t)
  {
  }

  /** Slots of other agents change. */
  lemma OthersSlot(slots: map<string, Slot>, after: map<string, Slot>, flights: map<Flight, nat>, t: Thread)
    requires InTurn(slots, flights, t)
    requires t.agent in after && after[t.agent].Ready? ==> t.agent in slots && slots[t.agent] == after[t.agent]
    ensures InTurn(after, flights, t)
  {
  }

  // ----- Local moves -----

  /** Moves that leave the turns alone. */
  predicate Calm(m: Move) {
    m.Enqueue? || m.Edit? || m.Open? || m.Withdraw? || m.Writes? || m.PushCard? || m.RunGranted? || m.TakeAnswer?
  }

  lemma CalmTurn(c: Core, m: Move)
    requires Allowed(c, m) && Calm(m)
    ensures After(c, m).session == c.threads[m.i].session && After(c, m).status == c.threads[m.i].status
  {
    hide Kept, CoveredBy, Grants;
  }

  lemma SessionAfter(c: Core, m: Move)
    requires Allowed(c, m) && Local(m) && !m.OpenAs?
    ensures After(c, m).session == c.threads[m.i].session
  {
    hide Kept, CoveredBy, Grants, Transcripts.Settled, TurnNotice;
  }

  /** The touched thread is in turn again. */
  lemma LocalTurn(c: Core, m: Move)
    requires Sound(c) && Good(c, m, FullCare) && Local(m)
    ensures InTurn(Do(c, m).slots, Do(c, m).flights, After(c, m))
  {
    hide Do, After, Facts, InTurn, Tied, Good;
    Caring(c, m);
    LocalDoes(c, m);
    assert InTurn(c.slots, c.flights, c.threads[m.i]) && Tied(c.slots, c.threads[m.i]);
    if Calm(m) {
      CalmTurn(c, m);
      SameThread(c, m);
      SameTurn(c.slots, c.flights, c.threads[m.i], After(c, m));
    } else if m.Mark? || m.OpenFails? {
      MarkTurn(c, m);
    } else if m.Hand? {
      HandTurn(c, m);
    } else if m.HandFails? {
      HandFailsTurn(c, m);
    } else if m.Lose? {
      LocalTied(c, m);
    } else if m.Rest? {
      RestTurn(c, m);
    } else {
      OpenTurn(c, m);
    }
  }

  lemma Caring(c: Core, m: Move)
    requires Good(c, m, FullCare)
    ensures Allowed(c, m) && Orderly(c, m) && AgentMoves.Proper(c, m)
  {
  }

  lemma MarkTurn(c: Core, m: Move)
    requires Allowed(c, m) && Orderly(c, m) && (m.Mark? || m.OpenFails?)
    requires InTurn(c.slots, c.flights, c.threads[m.i]) && Tied(c.slots, c.threads[m.i])
    ensures InTurn(c.slots, c.flights, After(c, m))
  {
  }

  lemma HandTurn(c: Core, m: Move)
    requires Allowed(c, m) && Orderly(c, m) && m.Hand?
    requires InTurn(c.slots, c.flights, c.threads[m.i])
    ensures InTurn(c.slots, c.flights[Flight(m.conn, m.id, c.threads[m.i].session.value) := c.threads[m.i].id], After(c, m))
  {
    var t := c.threads[m.i];
    var f := Flight(m.conn, m.id, t.session.value);
    assert Flying(c.flights, m.conn, t.id) == {};
    assert Flying(c.flights[f := t.id], m.conn, t.id) == {f};
  }

  lemma HandFailsTurn(c: Core, m: Move)
    requires Allowed(c, m) && m.HandFails?
    requires InTurn(c.slots, c.flights, c.threads[m.i])
    ensures InTurn(c.slots, c.flights, After(c, m))
  {
    hide Transcripts.Settled, TurnNotice;
  }

  lemma RestTurn(c: Core, m: Move)
    requires Allowed(c, m) && Orderly(c, m) && m.Rest?
    requires InTurn(c.slots, c.flights, c.threads[m.i])
    ensures InTurn(c.slots, ForgetFlight(c, c.threads[m.i].agent, c.threads[m.i].session.value, m.id).flights, After(c, m))
  {
    hide Transcripts.Settled, TurnNotice;
    var t := c.threads[m.i];
    var k := Connection(c, t.agent).value;
    var f := Flight(k, m.id, t.session.value);
    SameRest(t, m.result);
    assert f in Flying(c.flights, k, t.id);
    assert Flying(c.flights, k, t.id) == {f};
    assert Flying(c.flights - {f}, k, t.id) == {};
  }

  lemma OpenTurn(c: Core, m: Move)
    requires Allowed(c, m) && Orderly(c, m) && m.OpenAs?
    ensures InTurn(c.slots, c.flights, After(c, m))
  {
    var t := c.threads[m.i];
    if Connection(c, t.agent).Some? {
      assert Flying(c.flights, Connection(c, t.agent).value, t.id) == {};
    }
  }

  /** The prompt that goes in or out of flight with the move. */
  ghost function Touched(c: Core, m: Move): Flight
    requires Allowed(c, m) && (m.Hand? || m.Rest?) && Connection(c, c.threads[m.i].agent).Some?
  {
    Flight(Connection(c, c.threads[m.i].agent).value, m.id, c.threads[m.i].session.value)
  }

  lemma FlightsAfter(c: Core, m: Move)
    requires Good(c, m, FullCare) && Local(m)
    ensures var d := Do(c, m);
            if m.Hand? then d.flights == c.flights[Touched(c, m) := c.threads[m.i].id] && Touched(c, m) !in c.flights
            else if m.Rest? then Connection(c, c.threads[m.i].agent).Some? && d.flights == c.flights - {Touched(c, m)}
            else d.flights == c.flights
  {
    hide Do, After, Facts;
    LocalDoes(c, m);
  }

  /** The prompt is not of another thread's session. */
  lemma NotTheirs(c: Core, m: Move, k: nat)
    requires AgentWires.Apart(c.slots) && OwnSessions(c.threads) && Good(c, m, FullCare) && (m.Hand? || m.Rest?)
    requires k < |c.threads| && k != m.i
    ensures var t, f := c.threads[k], Touched(c, m);
            t.agent in c.slots && c.slots[t.agent] == Ready(f.conn) ==> t.session != Some(f.session)
  {
    var i, j := if k < m.i then k else m.i, if k < m.i then m.i else k;
    assert c.threads[i].session.Some? && c.threads[i].agent == c.threads[j].agent ==> c.threads[i].session != c.threads[j].session;
  }

  lemma LocalOthers(c: Core, m: Move, k: nat)
    requires Sound(c) && Ids(c) && Good(c, m, FullCare) && Local(m) && k < |c.threads| && k != m.i
    ensures InTurn(Do(c, m).slots, Do(c, m).flights, c.threads[k])
  {
    hide Do, After, Facts, InTurn, Touched, OwnSessions, AgentWires.Apart, Linked, Good;
    Caring(c, m);
    LocalDoes(c, m);
    FlightsAfter(c, m);
    if m.Hand? {
      NotTheirs(c, m, k);
      OthersPrompt(c.slots, c.flights, Touched(c, m), c.threads[m.i].id, c.threads[k]);
    } else if m.Rest? {
      NotTheirs(c, m, k);
      OthersEnd(c.slots, c.flights, Touched(c, m), c.threads[k]);
    }
  }

  lemma LocalSessions(c: Core, m: Move)
    requires OwnSessions(c.threads) && Good(c, m, FullCare) && Local(m)
    ensures OwnSessions(c.threads[m.i := After(c, m)])
  {
    hide After;
    SameThread(c, m);
    if m.OpenAs? {
      OpensNew(c, m);
    } else {
      SessionAfter(c, m);
    }
  }

  lemma OpensNew(c: Core, m: Move)
    requires OwnSessions(c.threads) && Good(c, m, FullCare) && m.OpenAs?
    ensures OwnSessions(c.threads[m.i := After(c, m)])
  {
    var u := After(c, m);
    var ts := c.threads[m.i := u];
    assert u.session == Some(m.session) && u.agent == c.threads[m.i].agent;
    forall k | 0 <= k < |c.threads| && k != m.i && c.threads[k].agent == u.agent ensures c.threads[k].session != u.session {
      assert !Fits(c.threads[k], BySession(u.agent, m.session));
    }
  }

  lemma LocalKept(c: Core, m: Move)
    requires Sound(c) && Ids(c) && Good(c, m, FullCare) && Local(m)
    ensures Turns(Do(c, m))
  {
    hide Do, After, Facts, InTurn, OwnSessions, AgentWires.Tight, Good;
    Caring(c, m);
    LocalDoes(c, m);
    LocalSessions(c, m);
    OwnersStay(c, m);
    LocalTurn(c, m);
    forall k | 0 <= k < |c.threads| && k != m.i ensures InTurn(Do(c, m).slots, Do(c, m).flights, c.threads[k]) {
      LocalOthers(c, m, k);
    }
  }

  lemma OwnersStay(c: Core, m: Move)
    requires Ids(c) && OfThreads(c.flights, c.nextThread) && Good(c, m, FullCare) && Local(m)
    ensures OfThreads(Do(c, m).flights, Do(c, m).nextThread)
  {
    hide Do, After, Facts, Good;
    Caring(c, m);
    LocalDoes(c, m);
    FlightsAfter(c, m);
  }

  // ----- The other moves -----

  lemma SweptTurn(slots: map<string, Slot>, after: map<string, Slot>, flights: map<Flight, nat>, t: Thread, s: Sweep)
    requires InTurn(slots, flights, t) && Tied(slots, t)
    requires s.Missing? ==> s.agent !in slots
    requires after == if s.AgentGone? || s.StartFailed? then slots - {s.agent} else slots
    ensures InTurn(after, flights, Swept(t, s))
    ensures Swept(t, s).session == t.session || Swept(t, s).session.None?
  {
    hide Kept, Transcripts.Settled, Flying, One;
  }

  lemma SweepKept(c: Core, m: Move)
    requires Sound(c) && Allowed(c, m) && SweepOf(m).Some?
    ensures Turns(Do(c, m))
  {
    hide Do, Facts, Swept, SweepThreads, InTurn, Tied;
    var d, s := Do(c, m), SweepOf(m).value;
    SweepDoes(c, m);
    SweepAt(c.threads, s);
    assert m.NoProgram? ==> s.Missing? && s.agent !in c.slots;
    forall i | 0 <= i < |c.threads|
      ensures InTurn(d.slots, d.flights, d.threads[i]) && d.threads[i].agent == c.threads[i].agent
      ensures d.threads[i].session == c.threads[i].session || d.threads[i].session.None?
    {
      SweptTurn(c.slots, d.slots, c.flights, c.threads[i], s);
      SameSwept(c.threads[i], s);
    }
  }

  lemma LandTurn(c: Core, m: Move)
    requires Turns(c) && AgentWires.Apart(c.slots) && Allowed(c, m) && m.Land?
    ensures Turns(Do(c, m))
  {
    hide InTurn, OwnSessions;
    var d := Do(c, m);
    FirstIsFirst(c.threads, BySession(m.agent, m.session));
    if Connection(c, m.agent).Some? {
      var f := Flight(Connection(c, m.agent).value, m.id, m.session);
      forall i | 0 <= i < |c.threads| ensures InTurn(c.slots, c.flights - {f}, c.threads[i]) {
        assert !Fits(c.threads[i], BySession(m.agent, m.session));
        OthersEnd(c.slots, c.flights, f, c.threads[i]);
      }
    }
  }

  lemma SlotTurn(c: Core, m: Move)
    requires Sound(c) && Good(c, m, FullCare) && (m.Begin? || m.Attach?)
    ensures Turns(Do(c, m))
  {
    hide InTurn, OwnSessions, Facts;
    RestDoes(c, m);
    SlotsOf(c, m);
    forall i | 0 <= i < |c.threads| ensures InTurn(Do(c, m).slots, c.flights, c.threads[i]) {
      assert Tied(c.slots, c.threads[i]);
      if c.threads[i].agent == m.agent {
        NewConnection(Do(c, m).slots, c.flights, c.threads[i]);
      } else {
        OthersSlot(c.slots, Do(c, m).slots, c.flights, c.threads[i]);
      }
    }
  }

  lemma RemoveTurn(c: Core, m: Move)
    requires Sound(c) && Allowed(c, m) && m.Remove?
    ensures Turns(Do(c, m))
  {
    hide InTurn, Facts;
    var d, rest := Do(c, m), Removed(c.threads, m.i);
    RestDoes(c, m);
    assert d.slots == c.slots || d.slots == c.slots - {c.threads[m.i].agent};
    forall j | 0 <= j < |rest| ensures rest[j] == c.threads[if j < m.i then j else j + 1] && InTurn(d.slots, c.flights, rest[j]) {
      OthersSlot(c.slots, d.slots, c.flights, rest[j]);
    }
  }

  lemma AddTurn(c: Core, m: Move)
    requires Sound(c) && Allowed(c, m) && m.Add?
    ensures Turns(Do(c, m))
  {
    hide Facts, Do, AgentWires.Tight;
    var d := Do(c, m);
    RestDoes(c, m);
    assert m.thread.id == c.nextThread + 1 && m.thread.session.None? && m.thread.status.Starting?;
    forall i | 0 <= i < |d.threads| ensures InTurn(d.slots, d.flights, d.threads[i]) {
      assert i < |c.threads| ==> d.threads[i] == c.threads[i];
    }
  }

  lemma OtherKept(c: Core, m: Move)
    requires Sound(c) && Good(c, m, FullCare) && !Local(m) && SweepOf(m).None?
    ensures Turns(Do(c, m))
  {
    hide InTurn, OwnSessions, Facts, Do, AgentWires.Apart, Linked;
    if m.Land? {
      LandTurn(c, m);
    } else if m.Begin? || m.Attach? {
      SlotTurn(c, m);
    } else if m.Remove? {
      RemoveTurn(c, m);
    } else if m.Add? {
      AddTurn(c, m);
    } else {
      RestDoes(c, m);
    }
  }

  lemma SoundKept(c: Core, m: Move)
    requires Sound(c) && Ids(c) && Good(c, m, FullCare)
    ensures Sound(Do(c, m))
  {
    hide Do, Turns, AgentWires.Tight, Allowed, Orderly, AgentMoves.Proper;
    AgentWires.TightKept(c, m);
    if Local(m) {
      LocalKept(c, m);
    } else if SweepOf(m).Some? {
      SweepKept(c, m);
    } else {
      OtherKept(c, m);
    }
  }

  // ----- Over any run -----

  lemma RunSound(configured: set<string>, allowWrites: bool, events: seq<Event>)
    requires FineRun(Fresh(configured, allowWrites), events, FullCare)
    ensures Sound(Run(Fresh(configured, allowWrites), events)) && Ids(Run(Fresh(configured, allowWrites), events))
  {
    hide Run, Do, Step, FineRun;
    var start := Fresh(configured, allowWrites);
    forall c, m | Ids(c) && Sound(c) && Good(c, m, FullCare) ensures Sound(Do(c, m)) {
      SoundKept(c, m);
    }
    RunKeeps(Sound, start, events, FullCare);
  }

  /** The flight is of the thread, on its agent's connection. */
  predicate OfTurn(c: Core, t: Thread, f: Flight) {
    f in c.flights && Connection(c, t.agent) == Some(f.conn) && c.flights[f] == t.id
  }

  /** After any run of an environment that keeps turns apart: a thread works exactly while a prompt of
      its own is in flight on its agent's connection, and there is never a second one; the prompts of
      a session in flight are those of the thread that has it, and no two threads of an agent have the
      same session. */
  lemma OnePromptAtATime(configured: set<string>, allowWrites: bool, events: seq<Event>, i: nat)
    requires FineRun(Fresh(configured, allowWrites), events, FullCare)
    requires i < |Run(Fresh(configured, allowWrites), events).threads|
    ensures var c := Run(Fresh(configured, allowWrites), events);
            var t := c.threads[i];
            && (t.status.Running? <==> exists f :: OfTurn(c, t, f))
            && (forall f, g :: OfTurn(c, t, f) && OfTurn(c, t, g) ==> f == g)
            && (forall f :: f in c.flights && Connection(c, t.agent) == Some(f.conn) ==> (OfTurn(c, t, f) <==> t.session == Some(f.session)))
            && (forall j :: 0 <= j < |c.threads| && j != i && c.threads[j].agent == t.agent && t.session.Some?
                  ==> c.threads[j].session != t.session)
  {
    hide Run, FineRun;
    RunSound(configured, allowWrites, events);
    ThreadInTurn(Run(Fresh(configured, allowWrites), events), i);
  }

  lemma ThreadInTurn(c: Core, i: nat)
    requires Sound(c) && i < |c.threads|
    ensures var t := c.threads[i];
            && (t.status.Running? <==> exists f :: OfTurn(c, t, f))
            && (forall f, g :: OfTurn(c, t, f) && OfTurn(c, t, g) ==> f == g)
            && (forall f :: f in c.flights && Connection(c, t.agent) == Some(f.conn) ==> (OfTurn(c, t, f) <==> t.session == Some(f.session)))
            && (forall j :: 0 <= j < |c.threads| && j != i && c.threads[j].agent == t.agent && t.session.Some?
                  ==> c.threads[j].session != t.session)
  {
    hide AgentWires.Wired;
    var t := c.threads[i];
    assert Tied(c.slots, t) && InTurn(c.slots, c.flights, t);
    if Connection(c, t.agent).Some? {
      var fs := Flying(c.flights, Connection(c, t.agent).value, t.id);
      assert forall f :: OfTurn(c, t, f) <==> f in fs;
      if t.status.Running? {
        var g :| fs == {g};
        assert g in fs;
      }
    }
    forall j | 0 <= j < |c.threads| && j != i && c.threads[j].agent == t.agent && t.session.Some?
      ensures c.threads[j].session != t.session
    {
      var a, b := if i < j then i else j, if i < j then j else i;
      assert c.threads[a].session.Some? ==> c.threads[a].session != c.threads[b].session;
    }
  }
}
