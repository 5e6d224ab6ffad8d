/** How agents, searches, sign-ins and work begin and end, in full and in plain words. */
module AgentStarts {
  import opened Wrappers
  import opened AgentTypes
  import opened AgentSteps
  import opened AgentRuns
  import opened AgentEffects
  import opened AgentDeeds
  import Transcripts

  // ----- Getting an agent going -----

  /** What getting an agent going does. An agent that runs opens a session for every thread that waits; one
      that starts already is left alone; one whose program is known starts; one that was not looked up is
      searched for; for any other one its threads say that it is missing. Everything else stays. */
  ghost predicate GetsGoing(c: Core, agent: string, d: Core) {
    && (agent in c.slots && c.slots[agent].Ready? ==>
          && d.slots == c.slots && d.lookup == c.lookup && d.log == c.log && |d.threads| == |c.threads|
          && forall k :: 0 <= k < |c.threads| ==>
               if WaitsFor(c.threads[k], agent)
               then exists task :: c.nextTask <= task < d.nextTask
                      && d.threads[k] == c.threads[k].(status := Starting, tasks := c.threads[k].tasks + {task})
               else d.threads[k] == c.threads[k])
    && (agent in c.slots && c.slots[agent].StartingSlot? ==> d == c)
    && (agent !in c.slots ==>
          && (agent in c.agents && c.agents[agent].program ==>
                d == c.(slots := c.slots[agent := StartingSlot(c.nextTask)], nextTask := c.nextTask + 1))
          && (agent in c.agents && !c.agents[agent].program && !c.agents[agent].checked ==>
                d == c.(lookup := Looking(Some(agent))))
          && (agent !in c.agents || (!c.agents[agent].program && c.agents[agent].checked) ==>
                && d.slots == c.slots && d.lookup == c.lookup && d.log == c.log && |d.threads| == |c.threads|
                && forall k :: 0 <= k < |c.threads| ==>
                     d.threads[k] == if c.threads[k].agent == agent then c.threads[k].(status := NotInstalled) else c.threads[k]))
  }

  lemma GoesExactly(c: Core, agent: string)
    requires forall k :: 0 <= k < |c.threads| ==> c.threads[k].cluster in c.contexts
    ensures GetsGoing(c, agent, EnsureAgent(c, agent))
  {
    hide OpenFrom, WaitsFor, SweepThreads;
    var d := EnsureAgent(c, agent);
    if agent in c.slots {
      if c.slots[agent].Ready? {
        OpensExactly(c, agent, 0);
        OpenLeaves(c, agent, 0);
      }
    } else if !(agent in c.agents && (c.agents[agent].program || !c.agents[agent].checked)) {
      MissingExactly(c, agent);
    }
  }

  lemma MissingExactly(c: Core, agent: string)
    ensures var d := SweepAll(c, Missing(agent));
            && d.slots == c.slots && d.lookup == c.lookup && d.log == c.log && |d.threads| == |c.threads|
            && forall k :: 0 <= k < |c.threads| ==>
                 d.threads[k] == if c.threads[k].agent == agent then c.threads[k].(status := NotInstalled) else c.threads[k]
  {
    SweepAt(c.threads, Missing(agent));
    NoFacts(c.threads, agent);
  }

  lemma {:induction false} NoFacts(ts: seq<Thread>, agent: string)
    ensures SweepFacts(ts, Missing(agent)) == []
    ensures SweepFacts(ts, StartFailed(agent)) == []
  {
    if ts != [] {
      NoFacts(ts[..|ts| - 1], agent);
    }
  }

  lemma {:induction false} OpenLeaves(c: Core, agent: string, i: nat)
    ensures var d := OpenFrom(c, agent, i);
            d.slots == c.slots && d.lookup == c.lookup && d.log == c.log && d.agents == c.agents
    decreases |c.threads| - i
  {
    hide Waiting;
    if i < |c.threads| {
      OpenLeaves(OpenSession(SetStatus(c, i, Starting), i), agent, i + 1);
      OpenLeaves(c, agent, i + 1);
    }
  }

  // ----- Ends of searches and starts -----

  /** The end of a search that is still wanted says of every agent whether it was found, and gets the agent
      going that the search was for; any other end changes nothing. */
  lemma FoundExactly(c: Core, found: set<string>)
    requires forall k :: 0 <= k < |c.threads| ==> c.threads[k].cluster in c.contexts
    ensures var d := Step(c, LookedUp(found));
            && (c.lookup == NoLookup ==> d == c)
            && (c.lookup.Looking? ==>
                  exists e: Core ::
                    && e == c.(lookup := NoLookup, agents := e.agents) && e.agents.Keys == c.agents.Keys
                    && (forall a :: a in e.agents ==> e.agents[a].checked && (e.agents[a].program <==> a in found))
                    && (c.lookup == Looking(None) ==> d == e)
                    && (forall a :: c.lookup == Looking(Some(a)) ==> GetsGoing(e, a, d)))
  {
    hide EnsureAgent, GetsGoing;
    if c.lookup.Looking? {
      var e := c.(lookup := NoLookup, agents := map a | a in c.agents :: Info(a in found, true));
      assert e == c.(lookup := NoLookup, agents := e.agents);
      if c.lookup.agent.Some? {
        GoesExactly(e, c.lookup.agent.value);
      }
    }
  }

  /** The end of a start that is not awaited changes nothing; when an awaited one fails, the agent is out, and
      exactly its threads without a session have failed. */
  lemma FailsExactly(c: Core, agent: string, task: nat)
    ensures var d := Step(c, AgentStarted(agent, task, None));
            if agent in c.slots && c.slots[agent] == StartingSlot(task) then
              && d.slots == c.slots - {agent} && d.log == c.log && |d.threads| == |c.threads|
              && forall k :: 0 <= k < |c.threads| ==>
                   var t := c.threads[k];
                   d.threads[k] == if t.agent == agent && t.session == None then t.(status := Failed) else t
            else d == c
  {
    SweepAt(c.threads, StartFailed(agent));
    NoFacts(c.threads, agent);
  }

  // ----- Again, and signing in -----

  /** A thread that has a session is left alone; any other one starts, and gets its agent going. */
  lemma RetriesExactly(c: Core, id: nat, i: nat)
    requires Ids(c) && i < |c.threads| && c.threads[i].id == id
    requires forall k :: 0 <= k < |c.threads| ==> c.threads[k].cluster in c.contexts
    ensures var d := Step(c, Retry(id));
            if c.threads[i].session.Some? then d == c
            else GetsGoing(c.(threads := c.threads[i := c.threads[i].(status := Starting)]), c.threads[i].agent, d)
  {
    hide EnsureAgent, GetsGoing, Ids;
    OwnId(c, i);
    if c.threads[i].session.None? {
      GoesExactly(SetStatus(c, i, Starting), c.threads[i].agent);
    }
  }

  /** Signing in makes the thread start. On a connection it is one more job for the thread; without one, the
      thread tries again. */
  lemma SignsInExactly(c: Core, id: nat, i: nat)
    requires Ids(c) && i < |c.threads| && c.threads[i].id == id
    ensures var d := Step(c, SignIn(id));
            var e := c.(threads := c.threads[i := c.threads[i].(status := Starting)]);
            if c.threads[i].agent in c.slots && c.slots[c.threads[i].agent].Ready?
            then d == e.(jobs := c.jobs + [SignInJob(id)])
            else d == Step(e, Retry(id))
  {
    hide EnsureAgent, Ids;
    OwnId(c, i);
  }

  /** A sign-in that went well opens a session for its thread; one that failed makes the thread fail. Either
      way the job is over, and no other thread changes. */
  lemma SignedInExactly(c: Core, job: nat, ok: bool, i: nat)
    requires Ids(c) && i < |c.threads| && job < |c.jobs| && c.jobs[job] == SignInJob(c.threads[i].id)
    requires c.threads[i].cluster in c.contexts
    ensures var d, t := Step(c, SignedIn(job, ok)), c.threads[i];
            && d.jobs == c.jobs[..job] + c.jobs[job + 1..] && d.slots == c.slots && d.log == c.log
            && d.threads == c.threads[i :=
                 if !ok then t.(status := Failed)
                 else if t.agent in c.slots && c.slots[t.agent].Ready? then t.(tasks := t.tasks + {c.nextTask})
                 else t]
  {
    hide Ids, OpenSession;
    OwnId(c, i);
    var e := EndJob(c, job);
    assert c.threads[i := c.threads[i]] == c.threads;
    if ok { OpensOne(e, i); }
  }

  lemma OpensOne(c: Core, i: nat)
    requires i < |c.threads| && c.threads[i].cluster in c.contexts
    ensures var t, d := c.threads[i], OpenSession(c, i);
            && d.jobs == c.jobs && d.slots == c.slots && d.log == c.log
            && d.threads == if t.agent in c.slots && c.slots[t.agent].Ready? then c.threads[i := t.(tasks := t.tasks + {c.nextTask})] else c.threads
  {
  }

  // ----- Work, notes and programs -----

  /** Finished work answers its own request and is over; nothing else changes. */
  lemma WorkEndsExactly(c: Core, job: nat, ok: bool, token: Token)
    requires job < |c.jobs| && (c.jobs[job] == RunJob(token) || c.jobs[job] == FileJob(token))
    ensures var reply := if !ok then WorkFailed else if c.jobs[job] == RunJob(token) then TerminalCreated else FileDone;
            Step(c, JobDone(job, ok))
            == c.(jobs := c.jobs[..job] + c.jobs[job + 1..], log := c.log + [Replied(token, reply)])
  {
  }

  /** A program that is set counts as looked up, for an agent there is. */
  lemma ProgramsExactly(c: Core, agent: string, installed: bool)
    ensures var d := Step(c, SetProgram(agent, installed));
            && d.agents.Keys == c.agents.Keys && d == c.(agents := d.agents)
            && forall a :: a in c.agents ==>
                 if a == agent then d.agents[a].checked && d.agents[a].program == installed else d.agents[a] == c.agents[a]
  {
  }

  /** A note comes last in its thread, and nothing else changes. */
  lemma NotesExactly(c: Core, id: nat, text: string, error: bool, i: nat)
    requires Ids(c) && i < |c.threads| && c.threads[i].id == id
    ensures Step(c, AddNotice(id, text, error)).threads
            == c.threads[i := c.threads[i].(entries := c.threads[i].entries + [Transcripts.Notice(text, error)])]
  {
    hide Ids;
    OwnId(c, i);
  }
}
