/** Exactly when opening a session, or signing in, keeps the turns of a thread apart. */
module AgentReopen {
  import opened Wrappers
  import opened AgentTypes
  import opened AgentSteps
  import opened AgentMoves
  import opened AgentRuns
  import opened AgentSafety
  import opened AgentLinks
  import opened AgentTurns
  import AgentWires
  import Transcripts

  // ----- What the next prompt leaves -----

  /** Threads, slots and prompts in flight stay what they were; another prompt may be in flight. */
  ghost predicate Grows(c: Core, d: Core) {
    && |d.threads| == |c.threads| && d.slots == c.slots
    && (forall k :: 0 <= k < |c.threads| ==>
          d.threads[k].session == c.threads[k].session && d.threads[k].agent == c.threads[k].agent && d.threads[k].id == c.threads[k].id)
    && (forall f :: f in c.flights ==> f in d.flights && d.flights[f] == c.flights[f])
  }

  /** After `next_prompt` on a thread at rest: the thread works only if one more prompt is in flight,
      under the id it was given. */
  ghost predicate Handled(c: Core, i: nat, wire: Option<nat>, d: Core)
    requires i < |c.threads|
  {
    && Grows(c, d)
    && (d.threads[i].status.Running? ==> wire.Some? && exists f: Flight :: f.id == wire.value && OfTurn(d, d.threads[i], f))
  }

  lemma {:induction false} NextPromptHandles(c: Core, i: nat, wire: Option<nat>)
    requires Ids(c) && i < |c.threads| && Connection(c, c.threads[i].agent).Some? && !c.threads[i].status.Running?
    requires NewWires(c, c.threads[i].agent, wire)
    ensures Handled(c, i, wire, NextPrompt(c, c.threads[i].id, wire))
    decreases |c.threads[i].queued|
  {
    hide Transcripts.Settled, CancelAll, TurnNotice, Rested, RestAt, Ids, Do;
    OwnId(c, i);
    var t := c.threads[i];
    if CanPrompt(t) {
      if wire.Some? {
        var f := Flight(Connection(c, t.agent).value, wire.value, t.session.value);
        var d := NextPrompt(c, t.id, wire);
        assert OfTurn(d, d.threads[i], f) && f !in c.flights;
      } else {
        var m := HandFails(i, Connection(c, t.agent).value);
        AfterFailure(c, i, m.conn);
        FailureLeaves(c, i, m.conn);
        NextPromptHandles(Do(c, m), i, wire);
      }
    }
  }

  lemma FailureLeaves(c: Core, i: nat, conn: nat)
    requires Allowed(c, HandFails(i, conn))
    ensures var d := Do(c, HandFails(i, conn)); Grows(c, d) && d.flights == c.flights && d.threads[i].status.Idle?
  {
    hide Transcripts.Settled, CancelAll, TurnNotice;
  }

  // ----- Out of turn -----

  /** A thread that does not work while a prompt of it is in flight. */
  lemma IdleInFlight(c: Core, i: nat, f: Flight)
    requires i < |c.threads| && OfTurn(c, c.threads[i], f) && !c.threads[i].status.Running?
    ensures !Turns(c)
  {
    assert f in Flying(c.flights, f.conn, c.threads[i].id);
    assert !InTurn(c.slots, c.flights, c.threads[i]);
  }

  lemma TwoInFlight(c: Core, i: nat, f: Flight, g: Flight)
    requires i < |c.threads| && f != g && OfTurn(c, c.threads[i], f) && OfTurn(c, c.threads[i], g)
    ensures !Turns(c)
  {
    var fs := Flying(c.flights, f.conn, c.threads[i].id);
    assert f in fs && g in fs;
    forall h ensures fs != {h} {
      assert f != h || g != h;
    }
    assert !InTurn(c.slots, c.flights, c.threads[i]);
  }

  /** A prompt of the thread's session that is another thread's. */
  lemma OthersInSession(c: Core, i: nat, f: Flight)
    requires i < |c.threads| && f in c.flights && Connection(c, c.threads[i].agent) == Some(f.conn)
    requires c.flights[f] != c.threads[i].id && c.threads[i].session == Some(f.session)
    ensures !Turns(c)
  {
    assert !InTurn(c.slots, c.flights, c.threads[i]);
  }

  lemma SharedSession(c: Core, i: nat, k: nat)
    requires i < |c.threads| && k < |c.threads| && i != k && c.threads[i].session.Some?
    requires c.threads[k].agent == c.threads[i].agent && c.threads[k].session == c.threads[i].session
    ensures !Turns(c)
  {
    var a, b := if i < k then i else k, if i < k then k else i;
    assert c.threads[a].session == c.threads[b].session;
  }

  lemma AtWork(c: Core, i: nat) returns (f: Flight)
    requires Sound(c) && i < |c.threads| && c.threads[i].status.Running?
    ensures OfTurn(c, c.threads[i], f)
  {
    ThreadInTurn(c, i);
    f :| OfTurn(c, c.threads[i], f);
  }

  // ----- A session opens -----

  lemma OpenedElsewhere(c: Core, i: nat, task: nat, session: string, wire: Option<nat>)
    requires Sound(c) && Ids(c) && i < |c.threads| && task in c.threads[i].tasks
    requires NewWires(c, c.threads[i].agent, wire) && !FreshSession(c, i, session)
    ensures !Turns(SessionOpenedStep(c, c.threads[i].id, task, Opened(session), wire))
  {
    hide NextPrompt, Turns, Transcripts.Settled, CancelAll;
    var t := c.threads[i];
    OwnId(c, i);
    assert Tied(c.slots, t);
    var d := Do(c, OpenAs(i, task, session));
    OpensThere(c, i, task, session);
    var e := NextPrompt(d, t.id, wire);
    NextPromptHandles(d, i, wire);
    if k :| 0 <= k < |c.threads| && k != i && Fits(c.threads[k], BySession(t.agent, session)) {
      SharedSession(e, i, k);
    } else {
      var f :| f in c.flights && Connection(c, t.agent) == Some(f.conn) && (f.session == session || c.flights[f] == t.id);
      if c.flights[f] != t.id {
        OthersInSession(e, i, f);
      } else if e.threads[i].status.Running? {
        var g: Flight :| g.id == wire.value && OfTurn(e, e.threads[i], g);
        TwoInFlight(e, i, f, g);
      } else {
        IdleInFlight(e, i, f);
      }
    }
  }

  lemma FailsAtWork(c: Core, i: nat, task: nat, opening: Opening, wire: Option<nat>)
    requires Sound(c) && Ids(c) && i < |c.threads| && task in c.threads[i].tasks && !opening.Opened?
    requires c.threads[i].status.Running?
    ensures !Turns(SessionOpenedStep(c, c.threads[i].id, task, opening, wire))
  {
    hide Turns, Sound;
    OwnId(c, i);
    var f := AtWork(c, i);
    IdleInFlight(SessionOpenedStep(c, c.threads[i].id, task, opening, wire), i, f);
  }

  /** An opening, for a thread that waits for it, keeps turns apart exactly when: the session is
      nobody else's, and no prompt of it or of the thread is in flight; or it fails on a thread that is
      not at work. */
  lemma OpeningKeepsTurns(c: Core, id: nat, task: nat, opening: Opening, wire: Option<nat>)
    requires Sound(c) && Ids(c)
    requires First(c.threads, ById(id)).Some? ==> NewWires(c, c.threads[First(c.threads, ById(id)).value].agent, wire)
    ensures Turns(Step(c, SessionOpened(id, task, opening, wire))) <==> Considerate(c, SessionOpened(id, task, opening, wire))
  {
    hide Turns, FreshSession, NextPrompt, Sound, Do, Good;
    var e := SessionOpened(id, task, opening, wire);
    if Considerate(c, e) {
      StepSound(c, e);
    } else {
      var i := First(c.threads, ById(id)).value;
      if opening.Opened? {
        OpenedElsewhere(c, i, task, opening.session, wire);
      } else {
        FailsAtWork(c, i, task, opening, wire);
      }
    }
  }

  lemma StepSound(c: Core, e: Event)
    requires Sound(c) && Ids(c) && Fine(c, e, FullCare)
    ensures Turns(Step(c, e))
  {
    hide Step, Turns, AgentWires.Tight, Do, Allowed, Orderly, AgentMoves.Proper, Fine;
    forall c, m | Ids(c) && Sound(c) && Good(c, m, FullCare) ensures Sound(Do(c, m)) {
      SoundKept(c, m);
    }
    StepKeeps(Sound, c, e, FullCare);
  }

  // ----- The user signs in -----

  lemma SignInAtWork(c: Core, i: nat)
    requires Sound(c) && Ids(c) && i < |c.threads| && c.threads[i].status.Running?
    ensures !Turns(SignInStep(c, c.threads[i].id))
  {
    hide Turns, Sound;
    OwnId(c, i);
    var f := AtWork(c, i);
    IdleInFlight(SignInStep(c, c.threads[i].id), i, f);
  }

  /** Starting a sign-in keeps turns apart exactly when the thread is not at work. */
  lemma SignInKeepsTurns(c: Core, id: nat)
    requires Sound(c) && Ids(c)
    ensures Turns(Step(c, SignIn(id))) <==> AtRest(c, id)
  {
    hide Turns, SignInStep, Sound;
    if AtRest(c, id) {
      StepSound(c, SignIn(id));
    } else {
      var i :| 0 <= i < |c.threads| && c.threads[i].id == id && c.threads[i].status.Running?;
      SignInAtWork(c, i);
    }
  }

  lemma SignInFailsAtWork(c: Core, job: nat, i: nat)
    requires Sound(c) && Ids(c) && job < |c.jobs| && c.jobs[job].SignInJob?
    requires i < |c.threads| && c.threads[i].id == c.jobs[job].thread && c.threads[i].status.Running?
    ensures !Turns(SignedInStep(c, job, false))
  {
    hide Turns, Sound;
    OwnId(c, i);
    var f := AtWork(c, i);
    IdleInFlight(SignedInStep(c, job, false), i, f);
  }

  /** The end of a sign-in keeps turns apart exactly when it succeeded or finds its thread at rest. */
  lemma SignedInKeepsTurns(c: Core, job: nat, ok: bool)
    requires Sound(c) && Ids(c) && job < |c.jobs| && c.jobs[job].SignInJob?
    ensures Turns(Step(c, SignedIn(job, ok))) <==> ok || AtRest(c, c.jobs[job].thread)
  {
    hide Turns, SignedInStep, Sound;
    if ok || AtRest(c, c.jobs[job].thread) {
      StepSound(c, SignedIn(job, ok));
    } else {
      var i :| 0 <= i < |c.threads| && c.threads[i].id == c.jobs[job].thread && c.threads[i].status.Running?;
      SignInFailsAtWork(c, job, i);
    }
  }

  // ----- A run that loses the turn -----

  /** The user starts a conversation, retries while its session opens, and sends a prompt once the
      first opening is done; the second opening brings some session. */
  function Reopening(session: string): seq<Event> {
    [StartThread("agent", "cluster", "/work", None, None),
     LookedUp({"agent"}),
     AgentStarted("agent", 0, Some(7)),
     Retry(1),
     SessionOpened(1, 1, Opened("session"), None),
     Send(1, Prompt("", ["pod"]), Some(10)),
     SessionOpened(1, 2, Opened(session), None)]
  }

  /** The one thread, the slots, the next task and the prompts in flight. */
  predicate Stage(c: Core, t: Thread, slots: map<string, Slot>, nextTask: nat, flights: map<Flight, nat>) {
    && c.threads == [t] && c.slots == slots && c.nextTask == nextTask && c.flights == flights && "cluster" in c.contexts
    && t.id == 1 && t.agent == "agent" && t.cluster == "cluster"
  }

  const Reopened: Thread := NewThread(1, "agent", "cluster", "/work", None, None)

  lemma Asked(session: string)
    ensures var c := Step(Fresh({"agent"}, false), Reopening(session)[0]);
            Stage(c, Reopened, map[], 0, map[]) && c.lookup == Looking(Some("agent")) && "agent" in c.agents
  {
  }

  lemma Found(c: Core, session: string)
    requires Stage(c, Reopened, map[], 0, map[]) && c.lookup == Looking(Some("agent")) && "agent" in c.agents
    ensures Stage(Step(c, Reopening(session)[1]), Reopened, map["agent" := StartingSlot(0)], 1, map[])
  {
    var d := c.(lookup := NoLookup, agents := map a | a in c.agents :: Info(a in {"agent"}, true));
    assert d.slots["agent" := StartingSlot(0)] == map["agent" := StartingSlot(0)];
  }

  lemma OneOpens(c: Core, t: Thread, n: nat)
    requires Stage(c, t, map["agent" := Ready(7)], n, map[]) && Waiting(t, "agent")
    ensures Stage(OpenFrom(c, "agent", 0), t.(status := Starting, tasks := t.tasks + {n}), map["agent" := Ready(7)], n + 1, map[])
  {
    assert OpenFrom(c, "agent", 0) == OpenFrom(OpenSession(SetStatus(c, 0, Starting), 0), "agent", 1);
  }

  lemma Started(c: Core, session: string)
    requires Stage(c, Reopened, map["agent" := StartingSlot(0)], 1, map[])
    ensures Stage(Step(c, Reopening(session)[2]), Reopened.(tasks := {1}), map["agent" := Ready(7)], 2, map[])
  {
    var d := c.(slots := c.slots["agent" := Ready(7)]);
    OneOpens(d, Reopened, 1);
    assert Reopened.tasks + {1} == {1};
  }

  lemma Retried(c: Core, session: string)
    requires Stage(c, Reopened.(tasks := {1}), map["agent" := Ready(7)], 2, map[])
    ensures Stage(Step(c, Reopening(session)[3]), Reopened.(tasks := {1, 2}), map["agent" := Ready(7)], 3, map[])
  {
    hide OpenFrom;
    OneOpens(SetStatus(c, 0, Starting), Reopened.(tasks := {1}), 2);
    assert {1} + {2} == {1, 2};
  }

  const Idling: Thread :=
    Reopened.(tasks := {2}, session := Some("session"), status := Idle)

  lemma OpensFirst(c: Core, session: string)
    requires Stage(c, Reopened.(tasks := {1, 2}), map["agent" := Ready(7)], 3, map[])
    ensures Stage(Step(c, Reopening(session)[4]), Idling, map["agent" := Ready(7)], 3, map[])
  {
    assert {1, 2} - {1} == {2};
  }

  const Flown: Flight := Flight(7, 10, "session")

  const Working: Thread := Idling.(status := Running, firstPrompt := false, entries := [Transcripts.User("", ["pod"])])

  lemma Sent(c: Core, session: string)
    requires Stage(c, Idling, map["agent" := Ready(7)], 3, map[])
    ensures Stage(Step(c, Reopening(session)[5]), Working, map["agent" := Ready(7)], 3, map[Flown := 1])
  {
    var p := Prompt("", ["pod"]);
    var asked := Idling.(entries := Idling.entries + [Transcripts.User("", ["pod"])], queued := Idling.queued + [p]);
    var d := Log(Put(c, 0, asked), [Fact.Asked(1, p)]);
    assert Step(c, Reopening(session)[5]) == NextPrompt(d, 1, Some(10));
    assert d.threads == [asked] && CanPrompt(asked);
    assert Busy(asked) == Working;
    assert {} + {Flown} == {Flown};
  }

  lemma OpensAgain(c: Core, session: string)
    requires Stage(c, Working, map["agent" := Ready(7)], 3, map[Flown := 1])
    ensures Stage(Step(c, Reopening(session)[6]), Working.(status := Idle, session := Some(session), tasks := {}), map["agent" := Ready(7)], 3, map[Flown := 1])
  {
    assert {2} - {2} == {};
    var d := Put(c, 0, OpenedThread(Working.(tasks := {}), session));
    assert d.threads == [Working.(status := Idle, session := Some(session), tasks := {})];
    assert Step(c, Reopening(session)[6]) == NextPrompt(d, 1, None);
  }

  lemma RunFirst(c: Core, events: seq<Event>, n: nat)
    requires n < |events|
    ensures Run(c, events[n..]) == Run(Step(c, events[n]), events[n + 1..])
  {
    assert events[n..][1..] == events[n + 1..];
  }

  /** When the second opening is done, whatever session it brings, the thread is idle although its
      prompt is in flight: the next prompt would not wait for it. */
  lemma ReopeningLosesTheTurn(session: string)
    ensures var c := Run(Fresh({"agent"}, false), Reopening(session));
            && |c.threads| == 1 && c.threads[0].status.Idle? && c.threads[0].session == Some(session)
            && OfTurn(c, c.threads[0], Flight(7, 10, "session"))
  {
    hide Run, Step, Fresh;
    var es := Reopening(session);
    var c0 := Fresh({"agent"}, false);
    assert es[0..] == es && es[7..] == [];
    Asked(session);
    var c1 := Step(c0, es[0]);
    Found(c1, session);
    var c2 := Step(c1, es[1]);
    Started(c2, session);
    var c3 := Step(c2, es[2]);
    Retried(c3, session);
    var c4 := Step(c3, es[3]);
    OpensFirst(c4, session);
    var c5 := Step(c4, es[4]);
    Sent(c5, session);
    var c6 := Step(c5, es[5]);
    OpensAgain(c6, session);
    var c7 := Step(c6, es[6]);
    RunFirst(c0, es, 0);
    RunFirst(c1, es, 1);
    RunFirst(c2, es, 2);
    RunFirst(c3, es, 3);
    RunFirst(c4, es, 4);
    RunFirst(c5, es, 5);
    RunFirst(c6, es, 6);
    EmptyRun(c7);
  }

  lemma EmptyRun(c: Core)
    ensures Run(c, []) == c
  {
  }
}
