/** An agent runs only while a thread wants it. */
module AgentProcesses {
  import opened Wrappers
  import opened AgentTypes
  import opened AgentSteps
  import opened AgentMoves
  import opened AgentRuns
  import opened AgentEffects
  import opened AgentSafety
  import AgentLinks

  /** Every agent that starts or runs has a thread. */
  ghost predicate InService(c: Core) {
    forall a :: a in c.slots ==> Wanted(c.threads, a)
  }

  ghost predicate Wanted(ts: seq<Thread>, agent: string) {
    exists i :: 0 <= i < |ts| && ts[i].agent == agent
  }

  lemma WantedFirst(ts: seq<Thread>, agent: string)
    ensures Wanted(ts, agent) <==> First(ts, AnyOf(agent)).Some?
  {
    FirstIsFirst(ts, AnyOf(agent));
    if i :| 0 <= i < |ts| && ts[i].agent == agent {
      assert Fits(ts[i], AnyOf(agent));
    }
  }

  lemma SameAgents(ts: seq<Thread>, us: seq<Thread>)
    requires |ts| == |us|
    requires forall i :: 0 <= i < |ts| ==> us[i].agent == ts[i].agent
    ensures forall a :: Wanted(ts, a) ==> Wanted(us, a)
  {
    forall a | Wanted(ts, a) ensures Wanted(us, a) {
      var i :| 0 <= i < |ts| && ts[i].agent == a;
      assert us[i].agent == a;
    }
  }

  lemma RemoveKept(c: Core, m: Move)
    requires InService(c) && Allowed(c, m) && m.Remove?
    ensures InService(Do(c, m))
  {
    var t, rest, d := c.threads[m.i], Removed(c.threads, m.i), Do(c, m);
    assert d.threads == rest;
    WantedFirst(rest, t.agent);
    forall a | a in d.slots ensures Wanted(rest, a) {
      assert Wanted(c.threads, a);
      var j :| 0 <= j < |c.threads| && c.threads[j].agent == a;
      if j != m.i {
        assert rest[if j < m.i then j else j - 1].agent == a;
      }
    }
  }

  lemma AddKept(c: Core, m: Move)
    requires InService(c) && Allowed(c, m) && m.Add?
    ensures InService(Do(c, m))
  {
    hide Do, Facts;
    RestDoes(c, m);
    forall a | Wanted(c.threads, a) ensures Wanted(c.threads + [m.thread], a) {
      var j :| 0 <= j < |c.threads| && c.threads[j].agent == a;
      assert (c.threads + [m.thread])[j].agent == a;
    }
  }

  lemma MoveKept(c: Core, m: Move)
    requires InService(c) && Allowed(c, m) && Used(c, m)
    ensures InService(Do(c, m))
  {
    hide Do, After, Facts, Swept, SweepThreads, Wanted;
    if Local(m) {
      LocalDoes(c, m);
      SameThread(c, m);
      SameAgents(c.threads, Do(c, m).threads);
    } else if SweepOf(m).Some? {
      SweepDoes(c, m);
      SweepAt(c.threads, SweepOf(m).value);
      forall i | 0 <= i < |c.threads| ensures Do(c, m).threads[i].agent == c.threads[i].agent {
        SameSwept(c.threads[i], SweepOf(m).value);
      }
      SameAgents(c.threads, Do(c, m).threads);
    } else if m.Remove? {
      RemoveKept(c, m);
    } else if m.Add? {
      AddKept(c, m);
    } else {
      RestDoes(c, m);
      if m.Begin? || m.Attach? {
        AgentLinks.SlotsOf(c, m);
        WantedFirst(c.threads, m.agent);
      }
    }
  }

  const UsedCare: Care := Care(false, false, true)

  lemma StepKeepsService(c: Core, e: Event)
    requires Ids(c) && InService(c) && UsedEvent(c, e)
    ensures InService(Step(c, e))
  {
    hide Step, Do, Allowed, Used, UsedEvent;
    forall v, m | Ids(v) && InService(v) && Good(v, m, UsedCare) ensures InService(Do(v, m)) {
      MoveKept(v, m);
    }
    StepKeeps(InService, c, e, UsedCare);
  }

  /** A search that ends after its agent's last thread was closed starts the agent all the same. */
  lemma UnusedStarts(c: Core, found: set<string>)
    requires StartsUnused(c, found)
    ensures !InService(LookedUpStep(c, found))
  {
    var agent := c.lookup.agent.value;
    var d := LookedUpStep(c, found);
    WantedFirst(c.threads, agent);
    assert agent in d.slots && d.threads == c.threads;
  }

  /** An event leaves an agent running that no thread wants exactly when it is the end of a search for
      an agent whose last thread was closed meanwhile. */
  lemma AgentsStopWithTheirThreadsExactly(c: Core, e: Event)
    requires Ids(c) && InService(c)
    ensures InService(Step(c, e)) <==> UsedEvent(c, e)
  {
    hide Step, StartsUnused;
    if UsedEvent(c, e) {
      StepKeepsService(c, e);
    } else {
      UnusedStarts(c, e.found);
      LookUpStep(c, e.found);
    }
  }

  lemma LookUpStep(c: Core, found: set<string>)
    ensures Step(c, LookedUp(found)) == LookedUpStep(c, found)
  {
  }

  /** After any run in which no search ends that way, every agent that starts or runs has a thread: it
      stops with its last one. */
  lemma AgentsStopWithTheirThreads(configured: set<string>, allowWrites: bool, events: seq<Event>)
    requires FineRun(Fresh(configured, allowWrites), events, UsedCare)
    ensures var c := Run(Fresh(configured, allowWrites), events);
            forall a :: a in c.slots ==> exists i :: 0 <= i < |c.threads| && c.threads[i].agent == a
  {
    hide Run, Do, Step, FineRun, Allowed, Used;
    var start := Fresh(configured, allowWrites);
    forall v, m | Ids(v) && InService(v) && Good(v, m, UsedCare) ensures InService(Do(v, m)) {
      MoveKept(v, m);
    }
    RunKeeps(InService, start, events, UsedCare);
    var c := Run(start, events);
    forall a | a in c.slots ensures exists i :: 0 <= i < |c.threads| && c.threads[i].agent == a {
      assert Wanted(c.threads, a);
    }
  }

  /** The user opens a thread and closes it while its agent is looked up: the agent is started for no
      thread. */
  lemma ClosedTooEarly()
    ensures var c := Run(Fresh({"agent"}, false),
                         [StartThread("agent", "cluster", "/work", None, None), CloseThread(1), LookedUp({"agent"})]);
            c.threads == [] && "agent" in c.slots
  {
    var c0 := Fresh({"agent"}, false);
    var c1 := StartThreadStep(c0, "agent", "cluster", "/work", None, None);
    assert |c1.threads| == 1 && c1.threads[0].id == 1 && c1.lookup == Looking(Some("agent")) && c1.slots == map[] && "agent" in c1.agents;
    var c2 := CloseThreadStep(c1, 1);
    assert StartsUnused(c2, {"agent"});
    UnusedStarts(c2, {"agent"});
    var c3 := LookedUpStep(c2, {"agent"});
    ThreeSteps(c0, StartThread("agent", "cluster", "/work", None, None), CloseThread(1), LookedUp({"agent"}));
  }

  lemma ThreeSteps(c: Core, a: Event, b: Event, e: Event)
    ensures Run(c, [a, b, e]) == Step(Step(Step(c, a), b), e)
  {
    hide Step;
    var x := Step(Step(c, a), b);
    assert [a, b, e][1..] == [b, e] && [b, e][1..] == [e] && [e][1..] == [];
    assert Run(x, [e]) == Run(Step(x, e), []) == Step(x, e);
    assert Run(Step(c, a), [b, e]) == Run(x, [e]);
  }
}
