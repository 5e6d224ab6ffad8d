/** A thread that starts is waited for: what it waits for is under way. */
module AgentAttendance {
  import opened Wrappers
  import opened AgentTypes
  import opened AgentSteps
  import opened AgentMoves
  import opened AgentRuns
  import opened AgentEffects
  import opened AgentSafety
  import opened AgentLinks
  import AgentContexts
  import AgentProcesses
  import Handing
  import Policy
  import Transcripts

  /** Something goes on that will take the thread further: its agent is being looked up or started, or
      its session opens, or the user signs in. */
  ghost predicate Attended(c: Core, t: Thread) {
    if t.agent !in c.slots then c.lookup == Looking(Some(t.agent))
    else c.slots[t.agent].Ready? ==> t.tasks != {} || SignInJob(t.id) in c.jobs
  }

  ghost predicate AllAttended(c: Core) {
    forall i :: 0 <= i < |c.threads| && c.threads[i].status.Starting? ==> Attended(c, c.threads[i])
  }

  ghost predicate Sound(c: Core) { Linked(c) && AgentContexts.InUse(c) }

  // ----- The condition -----

  /** The thread starts, and only a search for its agent can take it further. */
  predicate Needy(c: Core, t: Thread) { t.status.Starting? && t.agent !in c.slots }

  /** The agent would be looked up. */
  predicate Searches(c: Core, agent: string) {
    agent !in c.slots && agent in c.agents && !c.agents[agent].program && !c.agents[agent].checked
  }

  /** Looking up the agent would replace a search that a thread of another agent needs. */
  ghost predicate Replaces(c: Core, agent: string) {
    Searches(c, agent) && exists i :: 0 <= i < |c.threads| && Needy(c, c.threads[i]) && c.threads[i].agent != agent
  }

  ghost predicate RestartReplaces(c: Core, id: nat) {
    && First(c.threads, ById(id)).Some?
    && var t := c.threads[First(c.threads, ById(id)).value]; t.session.None? && Replaces(c, t.agent)
  }

  /** The event begins a search and so ends one that a starting thread needs. */
  ghost predicate ReplacesSearch(c: Core, e: Event) {
    match e
    case StartThread(agent, _, _, _, _) => Replaces(c, agent)
    case Retry(id) => RestartReplaces(c, id)
    case SignIn(id) => RestartReplaces(c, id)
    case Send(id, prompt, _) => Restarting(c, id, prompt) && RestartReplaces(c, id)
    case SettingsChanged(_, _) => exists i :: 0 <= i < |c.threads| && Needy(c, c.threads[i])
    case RefreshAgents => exists i :: 0 <= i < |c.threads| && Needy(c, c.threads[i])
    case _ => false
  }

  // ----- Events that start nothing -----

  /** Searches and sign-ins go on. */
  lemma WorkStays(c: Core, m: Move)
    requires Allowed(c, m) && Still(c, m)
    ensures Do(c, m).lookup == c.lookup && forall id :: SignInJob(id) in c.jobs ==> SignInJob(id) in Do(c, m).jobs
  {
    hide Do;
    if m.TakeAnswer? {
      AnswerStays(c, m);
    } else if SweepOf(m).Some? {
      SweepStays(c, m);
    } else if m.RunGranted? {
      GrantStays(c, m);
    } else {
      OtherStays(c, m);
    }
  }

  lemma AnswerStays(c: Core, m: Move)
    requires Allowed(c, m) && m.TakeAnswer?
    ensures Do(c, m).lookup == c.lookup && c.jobs <= Do(c, m).jobs
  {
    hide AnswerTaken;
    Handing.TakenLeaves(TakeCard(c, m.i, m.j), c.threads[m.i].id, m.i, c.threads[m.i].pending[m.j], m.answer);
  }

  lemma GrantStays(c: Core, m: Move)
    requires Allowed(c, m) && m.RunGranted?
    ensures Do(c, m).lookup == c.lookup && c.jobs <= Do(c, m).jobs
  {
    hide RunCommand, Policy.Covers;
    var t := c.threads[m.i];
    Handing.RunLeaves(Put(c, m.i, t.(grant := None)), t.id, t.agent, LaunchOf(t, m.request), m.token, t.grant.value.card, true,
                      Warned(m.request));
  }

  lemma OtherStays(c: Core, m: Move)
    requires Allowed(c, m) && Still(c, m) && !m.TakeAnswer? && !m.RunGranted? && SweepOf(m).None?
    ensures Do(c, m).lookup == c.lookup && forall id :: SignInJob(id) in c.jobs ==> SignInJob(id) in Do(c, m).jobs
  {
    hide Do;
    if m.FinishJob? {
      WorkEnds(c, m.job, m.ok);
      assert Do(c, m) == JobDoneStep(c, m.job, m.ok) by { JobIs(c, m); }
    } else if !m.Aside? {
      JobsStay(c, m);
    } else {
      AsideStays(c, m);
    }
  }

  lemma AsideStays(c: Core, m: Move)
    requires Allowed(c, m) && m.Aside?
    ensures Do(c, m) == m.next
  {
  }

  lemma JobIs(c: Core, m: Move)
    requires Allowed(c, m) && m.FinishJob?
    ensures Do(c, m) == JobDoneStep(c, m.job, m.ok)
  {
  }

  lemma WorkEnds(c: Core, job: nat, ok: bool)
    ensures var d := JobDoneStep(c, job, ok); d.lookup == c.lookup && forall id :: SignInJob(id) in c.jobs ==> SignInJob(id) in d.jobs
  {
    if job < |c.jobs| && !c.jobs[job].SignInJob? {
      forall x | x in c.jobs && x.SignInJob? ensures x in EndJob(c, job).jobs {
        OthersStay(c.jobs, job, x);
      }
    }
  }

  lemma OthersStay(jobs: seq<Job>, job: nat, x: Job)
    requires job < |jobs| && x in jobs && x != jobs[job]
    ensures x in jobs[..job] + jobs[job + 1..]
  {
    var k :| 0 <= k < |jobs| && jobs[k] == x;
    assert k < job ==> jobs[..job][k] == x;
    assert k > job ==> jobs[job + 1..][k - job - 1] == x;
  }

  lemma JobsStay(c: Core, m: Move)
    requires Allowed(c, m) && !m.TakeAnswer? && !m.RunGranted? && SweepOf(m).None? && !m.FinishJob? && !m.Aside?
    ensures Do(c, m).lookup == c.lookup && Do(c, m).jobs == c.jobs
  {
    hide Do;
    if Local(m) {
      LocalJobs(c, m);
    } else {
      RestJobs(c, m);
    }
  }

  lemma LocalJobs(c: Core, m: Move)
    requires Allowed(c, m) && Local(m) && !m.TakeAnswer? && !m.RunGranted?
    ensures Do(c, m).lookup == c.lookup && Do(c, m).jobs == c.jobs
  {
    hide SweepAll, CancelAll, Kept, SiftFacts, WithdrawAll, RunCommand, AnswerTaken, ShownEnv, CoveredBy, Busy, Rested, OpenedThread;
    if m.HandFails? || m.Hand? || m.Rest? || m.Withdraw? {
      TurnJobs(c, m);
    }
  }

  lemma TurnJobs(c: Core, m: Move)
    requires Allowed(c, m) && (m.HandFails? || m.Hand? || m.Rest? || m.Withdraw?)
    ensures Do(c, m).lookup == c.lookup && Do(c, m).jobs == c.jobs
  {
    hide CancelAll, WithdrawAll, Busy, Rested;
  }

  lemma RestJobs(c: Core, m: Move)
    requires Allowed(c, m) && !Local(m) && SweepOf(m).None? && !m.FinishJob? && !m.Aside?
    ensures Do(c, m).lookup == c.lookup && Do(c, m).jobs == c.jobs
  {
    hide SweepAll, AllowOption, KnownTitle, Kubyl, Transcripts.Keeps, Transcripts.UniqueTools;
  }

  lemma SweepStays(c: Core, m: Move)
    requires Allowed(c, m) && SweepOf(m).Some?
    ensures Do(c, m).lookup == c.lookup && Do(c, m).jobs == c.jobs
  {
  }

  /** A thread that starts after the move did before, with the same openings and perhaps more. */
  lemma LocalStarts(c: Core, m: Move)
    requires Allowed(c, m) && Local(m) && Still(c, m) && After(c, m).status.Starting?
    ensures c.threads[m.i].status.Starting? && c.threads[m.i].tasks <= After(c, m).tasks
  {
    hide Transcripts.Settled, TurnNotice, Kept, CoveredBy, Grants;
  }

  lemma SweptStarts(t: Thread, s: Sweep)
    requires Swept(t, s).status.Starting?
    ensures t.status.Starting? && Swept(t, s).tasks == t.tasks
    ensures (s.AgentGone? ==> t.agent != s.agent) && (s.StartFailed? && t.session.None? ==> t.agent != s.agent)
  {
    hide Transcripts.Settled, Kept;
  }

  /** What waits for something goes on doing so. */
  lemma StillAttended(c: Core, t: Thread, d: Core, u: Thread)
    requires Attended(c, t) && u.agent == t.agent && u.id == t.id && t.tasks <= u.tasks
    requires d.lookup == c.lookup && forall id :: SignInJob(id) in c.jobs ==> SignInJob(id) in d.jobs
    requires t.agent in c.slots ==> t.agent in d.slots && d.slots[t.agent] == c.slots[t.agent]
    requires t.agent in d.slots && t.agent !in c.slots ==> d.slots[t.agent].StartingSlot?
    ensures Attended(d, u)
  {
  }

  lemma StillLocal(c: Core, m: Move)
    requires AllAttended(c) && Allowed(c, m) && Local(m) && Still(c, m)
    ensures AllAttended(Do(c, m))
  {
    hide Do, After, Facts, Attended, Still;
    var d := Do(c, m);
    LocalDoes(c, m);
    WorkStays(c, m);
    SameThread(c, m);
    forall i | 0 <= i < |d.threads| && d.threads[i].status.Starting? ensures Attended(d, d.threads[i]) {
      if i == m.i { LocalStarts(c, m); }
      StillAttended(c, c.threads[i], d, d.threads[i]);
    }
  }

  lemma StillSweep(c: Core, m: Move)
    requires Linked(c) && AllAttended(c) && Allowed(c, m) && SweepOf(m).Some?
    ensures AllAttended(Do(c, m))
  {
    hide Do, Facts, Attended, Swept, SweepThreads;
    var d, s := Do(c, m), SweepOf(m).value;
    SweepDoes(c, m);
    SweepAt(c.threads, s);
    SweepStays(c, m);
    forall i | 0 <= i < |d.threads| && d.threads[i].status.Starting? ensures Attended(d, d.threads[i]) {
      SweptStarts(c.threads[i], s);
      SameSwept(c.threads[i], s);
      assert Tied(c.slots, c.threads[i]);
      StillAttended(c, c.threads[i], d, d.threads[i]);
    }
  }

  lemma StillOther(c: Core, m: Move)
    requires AllAttended(c) && Allowed(c, m) && !Local(m) && SweepOf(m).None? && Still(c, m)
    ensures AllAttended(Do(c, m))
  {
    hide Do, Facts, Attended;
    var d := Do(c, m);
    RestDoes(c, m);
    WorkStays(c, m);
    OtherSlots(c, m);
    forall i | 0 <= i < |d.threads| && d.threads[i].status.Starting? ensures Attended(d, d.threads[i]) {
      var k := if m.Remove? && i >= m.i then i + 1 else i;
      assert d.threads[i] == c.threads[k];
      StillAttended(c, c.threads[k], d, d.threads[i]);
    }
  }

  /** A slot goes only with the last thread of its agent. */
  lemma OtherSlots(c: Core, m: Move)
    requires Allowed(c, m) && !Local(m) && SweepOf(m).None? && Still(c, m)
    ensures var d := Do(c, m);
            forall i :: 0 <= i < |d.threads| ==>
              var a := d.threads[i].agent;
              && (a in c.slots ==> a in d.slots && d.slots[a] == c.slots[a])
              && (a in d.slots && a !in c.slots ==> d.slots[a].StartingSlot?)
  {
    hide Facts;
    RestDoes(c, m);
    if m.Remove? {
      FirstIsFirst(Removed(c.threads, m.i), AnyOf(c.threads[m.i].agent));
    }
  }

  lemma StillKept(c: Core, m: Move)
    requires Sound(c) && AllAttended(c) && Good(c, m, StillCare)
    ensures Sound(Do(c, m)) && AllAttended(Do(c, m))
  {
    hide Do, AllAttended, Linked, AgentContexts.InUse;
    LinkKept(c, m);
    AgentContexts.MoveKept(c, m);
    if Local(m) {
      StillLocal(c, m);
    } else if SweepOf(m).Some? {
      StillSweep(c, m);
    } else {
      StillOther(c, m);
    }
  }

  const StillCare: Care := Care(false, false, false, true)

  lemma StillStep(c: Core, e: Event)
    requires Ids(c) && Sound(c) && AllAttended(c) && StillEvent(c, e)
    ensures AllAttended(Step(c, e))
  {
    hide Step, Do, Allowed, Sound, AllAttended, StillEvent, Still;
    forall v, m | Ids(v) && (Sound(v) && AllAttended(v)) && Good(v, m, StillCare) ensures Sound(Do(v, m)) && AllAttended(Do(v, m)) {
      StillKept(v, m);
    }
    StepKeeps((v: Core) => Sound(v) && AllAttended(v), c, e, StillCare);
  }

  // ----- An agent is needed -----

  /** `open_waiting` opens a session for each waiting thread from `i` on, and changes nothing else. */
  lemma {:induction false} OpenFromOpens(c: Core, agent: string, i: nat)
    requires Connection(c, agent).Some? && forall k :: 0 <= k < |c.threads| ==> c.threads[k].cluster in c.contexts
    ensures var d := OpenFrom(c, agent, i);
            && |d.threads| == |c.threads| && d.slots == c.slots && d.lookup == c.lookup && d.jobs == c.jobs
            && forall k :: 0 <= k < |c.threads| ==>
                 if i <= k && Waiting(c.threads[k], agent) then d.threads[k].tasks != {} && d.threads[k].agent == agent
                 else d.threads[k] == c.threads[k]
    decreases |c.threads| - i
  {
    hide Waiting;
    if i < |c.threads| {
      if Waiting(c.threads[i], agent) {
        WaitingAgent(c.threads[i], agent);
        OpenFromOpens(OpenSession(SetStatus(c, i, Starting), i), agent, i + 1);
      } else {
        OpenFromOpens(c, agent, i + 1);
      }
    }
  }

  lemma WaitingAgent(t: Thread, agent: string)
    requires Waiting(t, agent)
    ensures t.agent == agent
  {
  }

  /** All but the threads of the agent that have no session are attended. */
  ghost predicate OthersAttended(c: Core, agent: string) {
    forall i :: 0 <= i < |c.threads| && c.threads[i].status.Starting? && (c.threads[i].agent != agent || c.threads[i].session.Some?)
      ==> Attended(c, c.threads[i])
  }

  lemma ReadyAttends(c: Core, agent: string)
    requires AgentContexts.InUse(c) && OthersAttended(c, agent) && Connection(c, agent).Some?
    ensures AllAttended(OpenFrom(c, agent, 0))
  {
    hide OpenFrom;
    OpenFromOpens(c, agent, 0);
    var d := OpenFrom(c, agent, 0);
    forall i | 0 <= i < |d.threads| && d.threads[i].status.Starting? ensures Attended(d, d.threads[i]) {
      var t := c.threads[i];
      if !Waiting(t, agent) {
        assert Attended(c, t);
      }
    }
  }

  lemma MissingAttends(c: Core, agent: string)
    requires Linked(c) && OthersAttended(c, agent) && agent !in c.slots
    ensures AllAttended(SweepAll(c, Missing(agent)))
  {
    hide Swept, SweepThreads, SweepFacts, Attended;
    var d := SweepAll(c, Missing(agent));
    SweepAt(c.threads, Missing(agent));
    forall i | 0 <= i < |d.threads| && d.threads[i].status.Starting? ensures Attended(d, d.threads[i]) {
      MissingSwept(c.threads[i], agent);
      StillAttended(c, c.threads[i], d, d.threads[i]);
    }
  }

  lemma MissingSwept(t: Thread, agent: string)
    ensures var u := Swept(t, Missing(agent));
            if t.agent == agent then u.status.NotInstalled? else u == t
  {
  }

  lemma StartAttends(c: Core, agent: string)
    requires OthersAttended(c, agent) && agent !in c.slots
    ensures AllAttended(c.(slots := c.slots[agent := StartingSlot(c.nextTask)], nextTask := c.nextTask + 1))
  {
    var d := c.(slots := c.slots[agent := StartingSlot(c.nextTask)], nextTask := c.nextTask + 1);
    forall i | 0 <= i < |d.threads| && d.threads[i].status.Starting? ensures Attended(d, d.threads[i]) {
    }
  }

  /** The search is for this agent; the threads of all others must do without. */
  lemma SearchAttends(c: Core, agent: string)
    requires Linked(c) && OthersAttended(c, agent) && Searches(c, agent)
    ensures AllAttended(c.(lookup := Looking(Some(agent)))) <==> !Replaces(c, agent)
  {
    var d := c.(lookup := Looking(Some(agent)));
    if !Replaces(c, agent) {
      forall i | 0 <= i < |d.threads| && d.threads[i].status.Starting? ensures Attended(d, d.threads[i]) {
        assert Tied(c.slots, c.threads[i]);
        assert !(Needy(c, c.threads[i]) && c.threads[i].agent != agent);
      }
    } else {
      var i :| 0 <= i < |c.threads| && Needy(c, c.threads[i]) && c.threads[i].agent != agent;
      assert !Attended(d, d.threads[i]);
    }
  }

  /** When all but the agent's own threads are attended, then after `ensure_agent` all are, exactly
      when it replaces no search that a thread of another agent needs. */
  lemma EnsureAttends(c: Core, agent: string)
    requires Sound(c) && OthersAttended(c, agent)
    ensures AllAttended(EnsureAgent(c, agent)) <==> !Replaces(c, agent)
  {
    hide AllAttended, OthersAttended, AgentContexts.InUse, Linked, OpenFrom, SweepAll;
    if agent in c.slots {
      if c.slots[agent].Ready? {
        ReadyAttends(c, agent);
      } else {
        WaitAttends(c, agent);
      }
    } else if Searches(c, agent) {
      SearchAttends(c, agent);
    } else if agent in c.agents && c.agents[agent].program {
      StartAttends(c, agent);
    } else {
      MissingAttends(c, agent);
    }
  }

  lemma WaitAttends(c: Core, agent: string)
    requires OthersAttended(c, agent) && agent in c.slots && !c.slots[agent].Ready?
    ensures AllAttended(c)
  {
  }

  // ----- Events that start something -----

  lemma StartThreadAttends(c: Core, agent: string, cluster: string, cwd: string, first: Option<Prompt>, resume: Option<string>)
    requires Sound(c) && AllAttended(c)
    ensures AllAttended(StartThreadStep(c, agent, cluster, cwd, first, resume)) <==> !Replaces(c, agent)
  {
    hide EnsureAgent, Sound, Attended;
    var m := Add(NewThread(c.nextThread + 1, agent, cluster, cwd, first, resume), first);
    var d := Do(c, m);
    SoundAfter(c, m);
    assert d.threads == c.threads + [m.thread] && d.slots == c.slots && d.agents == c.agents;
    forall i | 0 <= i < |d.threads| && d.threads[i].status.Starting? && (d.threads[i].agent != agent || d.threads[i].session.Some?)
      ensures Attended(d, d.threads[i])
    {
      StillAttended(c, c.threads[i], d, d.threads[i]);
    }
    EnsureAttends(d, agent);
    AddedReplaces(c, d, m.thread, agent);
  }

  lemma AddedReplaces(c: Core, d: Core, t: Thread, agent: string)
    requires d.threads == c.threads + [t] && t.agent == agent && d.slots == c.slots && d.agents == c.agents
    ensures Replaces(d, agent) <==> Replaces(c, agent)
  {
    if Replaces(c, agent) {
      var i :| 0 <= i < |c.threads| && Needy(c, c.threads[i]) && c.threads[i].agent != agent;
      assert d.threads[i] == c.threads[i] && Needy(d, d.threads[i]);
    }
    if Replaces(d, agent) {
      var i :| 0 <= i < |d.threads| && Needy(d, d.threads[i]) && d.threads[i].agent != agent;
      assert d.threads[i] == c.threads[i] && Needy(c, c.threads[i]);
    }
  }

  lemma SoundAfter(c: Core, m: Move)
    requires Sound(c) && Allowed(c, m)
    ensures Sound(Do(c, m))
  {
    hide Do, Linked, AgentContexts.InUse;
    LinkKept(c, m);
    AgentContexts.MoveKept(c, m);
  }

  /** A thread without a session starts again. */
  lemma RestartAttends(c: Core, i: nat)
    requires Sound(c) && i < |c.threads| && c.threads[i].session.None?
    requires forall k :: 0 <= k < |c.threads| && k != i && c.threads[k].status.Starting? ==> Attended(c, c.threads[k])
    ensures AllAttended(EnsureAgent(SetStatus(c, i, Starting), c.threads[i].agent)) <==> !Replaces(c, c.threads[i].agent)
  {
    hide EnsureAgent, Sound, Attended;
    var m := Mark(i, Starting);
    var agent, d := c.threads[i].agent, Do(c, m);
    SoundAfter(c, m);
    assert d == SetStatus(c, i, Starting);
    forall k | 0 <= k < |d.threads| && d.threads[k].status.Starting? && (d.threads[k].agent != agent || d.threads[k].session.Some?)
      ensures Attended(d, d.threads[k])
    {
      StillAttended(c, c.threads[k], d, d.threads[k]);
    }
    EnsureAttends(d, agent);
    MarkedReplaces(c, d, i, agent);
  }

  lemma MarkedReplaces(c: Core, d: Core, i: nat, agent: string)
    requires i < |c.threads| && c.threads[i].agent == agent && d == SetStatus(c, i, Starting)
    ensures Replaces(d, agent) <==> Replaces(c, agent)
  {
    if Replaces(c, agent) {
      var k :| 0 <= k < |c.threads| && Needy(c, c.threads[k]) && c.threads[k].agent != agent;
      assert d.threads[k] == c.threads[k] && Needy(d, d.threads[k]);
    }
    if Replaces(d, agent) {
      var k :| 0 <= k < |d.threads| && Needy(d, d.threads[k]) && d.threads[k].agent != agent;
      assert d.threads[k] == c.threads[k] && Needy(c, c.threads[k]);
    }
  }

  lemma RetryAttends(c: Core, id: nat)
    requires Sound(c) && AllAttended(c)
    ensures AllAttended(RetryStep(c, id)) <==> !RestartReplaces(c, id)
  {
    hide EnsureAgent, Sound, Attended, Replaces;
    var i := First(c.threads, ById(id));
    if i.Some? && c.threads[i.value].session.None? {
      RestartAttends(c, i.value);
    }
  }

  lemma SendAttends(c: Core, id: nat, prompt: Prompt, wire: Option<nat>)
    requires Ids(c) && Sound(c) && AllAttended(c) && Restarting(c, id, prompt)
    ensures AllAttended(SendStep(c, id, prompt, wire)) <==> !RestartReplaces(c, id)
  {
    hide RetryStep, Sound, AllAttended, Empty, RestartReplaces, Do, Ids;
    var i := First(c.threads, ById(id)).value;
    var m := Enqueue(i, prompt);
    SoundAfter(c, m);
    QueuedAttends(c, m);
    OwnId(c, i);
    QueuedId(c, m);
    RetryAttends(Do(c, m), id);
    QueuedReplaces(c, Do(c, m), i, id);
    SendRestarts(c, id, prompt, wire);
  }

  lemma QueuedAttends(c: Core, m: Move)
    requires AllAttended(c) && Allowed(c, m) && m.Enqueue?
    ensures AllAttended(Do(c, m))
  {
    hide Attended;
    var d := Do(c, m);
    forall k | 0 <= k < |d.threads| && d.threads[k].status.Starting? ensures Attended(d, d.threads[k]) {
      StillAttended(c, c.threads[k], d, d.threads[k]);
    }
  }

  lemma QueuedId(c: Core, m: Move)
    requires Ids(c) && Allowed(c, m) && m.Enqueue?
    ensures var d := Do(c, m);
            && First(d.threads, ById(c.threads[m.i].id)) == Some(m.i)
            && |d.threads| == |c.threads| && d.slots == c.slots && d.agents == c.agents
            && forall k :: 0 <= k < |c.threads| ==>
                 var t, u := c.threads[k], d.threads[k];
                 u.status == t.status && u.agent == t.agent && u.session == t.session
  {
    var d := Do(c, m);
    assert Ids(d) && d.threads[m.i].id == c.threads[m.i].id;
    OwnId(d, m.i);
  }

  lemma SendRestarts(c: Core, id: nat, prompt: Prompt, wire: Option<nat>)
    requires Restarting(c, id, prompt)
    ensures SendStep(c, id, prompt, wire) == RetryStep(Do(c, Enqueue(First(c.threads, ById(id)).value, prompt)), id)
  {
    hide RetryStep, Empty;
  }

  lemma QueuedReplaces(c: Core, d: Core, i: nat, id: nat)
    requires First(c.threads, ById(id)) == Some(i) && First(d.threads, ById(id)) == Some(i)
    requires |d.threads| == |c.threads| && d.slots == c.slots && d.agents == c.agents
    requires forall k :: 0 <= k < |c.threads| ==>
               var t, u := c.threads[k], d.threads[k];
               u.status == t.status && u.agent == t.agent && u.session == t.session
    ensures RestartReplaces(d, id) <==> RestartReplaces(c, id)
  {
    var agent := c.threads[i].agent;
    if Replaces(c, agent) {
      var k :| 0 <= k < |c.threads| && Needy(c, c.threads[k]) && c.threads[k].agent != agent;
      assert Needy(d, d.threads[k]);
    }
    if Replaces(d, agent) {
      var k :| 0 <= k < |d.threads| && Needy(d, d.threads[k]) && d.threads[k].agent != agent;
      assert Needy(c, c.threads[k]);
    }
  }

  lemma SignInAttends(c: Core, id: nat)
    requires Ids(c) && Sound(c) && AllAttended(c)
    ensures AllAttended(SignInStep(c, id)) <==> !RestartReplaces(c, id)
  {
    hide EnsureAgent, Replaces, Attended, AgentContexts.InUse, AllAttended, RetryStep;
    match First(c.threads, ById(id))
    case None =>
    case Some(i) =>
      OwnId(c, i);
      assert Tied(c.slots, c.threads[i]);
      if Connection(c, c.threads[i].agent).None? {
        AllButOne(c, i);
        RestartAttends(c, i);
        SignInRestarts(c, id, i);
      } else {
        ConnectedReplaces(c, c.threads[i].agent);
        JobBegins(c, i);
      }
  }

  lemma AllButOne(c: Core, i: nat)
    requires AllAttended(c)
    ensures forall k :: 0 <= k < |c.threads| && k != i && c.threads[k].status.Starting? ==> Attended(c, c.threads[k])
  {
  }

  lemma SignInRestarts(c: Core, id: nat, i: nat)
    requires Ids(c) && First(c.threads, ById(id)) == Some(i)
    requires Connection(c, c.threads[i].agent).None? && c.threads[i].session.None?
    ensures SignInStep(c, id) == EnsureAgent(SetStatus(c, i, Starting), c.threads[i].agent)
  {
    hide EnsureAgent;
    var d := SetStatus(c, i, Starting);
    OwnId(d, i);
    assert SetStatus(d, i, Starting) == d;
  }

  lemma JobBegins(c: Core, i: nat)
    requires AllAttended(c) && i < |c.threads| && c.threads[i].agent in c.slots
    ensures AllAttended(NewJob(SetStatus(c, i, Starting), SignInJob(c.threads[i].id)))
  {
    hide Attended;
    var e := NewJob(SetStatus(c, i, Starting), SignInJob(c.threads[i].id));
    assert e.jobs[|c.jobs|] == SignInJob(c.threads[i].id);
    forall k | 0 <= k < |e.threads| && e.threads[k].status.Starting? ensures Attended(e, e.threads[k]) {
      if k == i { JobAttends(e, e.threads[i]); } else { StillAttended(c, c.threads[k], e, e.threads[k]); }
    }
  }

  lemma ConnectedReplaces(c: Core, agent: string)
    requires agent in c.slots
    ensures !Replaces(c, agent)
  {
  }

  lemma JobAttends(c: Core, t: Thread)
    requires t.agent in c.slots && SignInJob(t.id) in c.jobs
    ensures Attended(c, t)
  {
  }

  /** A sign-in that ends opens the session, or fails. */
  lemma SignedInAttends(c: Core, job: nat, ok: bool)
    requires Ids(c) && Sound(c) && AllAttended(c)
    ensures AllAttended(SignedInStep(c, job, ok))
  {
    hide Attended, Linked, OpenSession;
    if job < |c.jobs| && c.jobs[job].SignInJob? {
      var d := SignedInStep(c, job, ok);
      var id := c.jobs[job].thread;
      var first := First(c.threads, ById(id));
      FirstIsFirst(c.threads, ById(id));
      if ok && first.Some? {
        SignedInOpens(c, job);
      } else {
        forall k | 0 <= k < |d.threads| && d.threads[k].status.Starting? ensures Attended(d, d.threads[k]) {
          assert d.threads[k] == c.threads[k];
          assert Fits(c.threads[k], ById(id)) <==> c.threads[k].id == id;
          OtherJobs(c, d, job, c.threads[k]);
        }
      }
    }
  }

  lemma OtherJobs(c: Core, d: Core, job: nat, t: Thread)
    requires Attended(c, t) && job < |c.jobs| && c.jobs[job] != SignInJob(t.id)
    requires d.slots == c.slots && d.lookup == c.lookup && d.jobs == c.jobs[..job] + c.jobs[job + 1..]
    ensures Attended(d, t)
  {
    if SignInJob(t.id) in c.jobs {
      var k :| 0 <= k < |c.jobs| && c.jobs[k] == SignInJob(t.id);
      assert d.jobs[if k < job then k else k - 1] == SignInJob(t.id);
    }
  }

  lemma SignedInOpens(c: Core, job: nat)
    requires Ids(c) && Sound(c) && AllAttended(c) && job < |c.jobs| && c.jobs[job].SignInJob?
    requires First(c.threads, ById(c.jobs[job].thread)).Some?
    ensures AllAttended(SignedInStep(c, job, true))
  {
    hide Attended, Linked;
    var i := First(c.threads, ById(c.jobs[job].thread)).value;
    var d := SignedInStep(c, job, true);
    forall k | 0 <= k < |d.threads| && d.threads[k].status.Starting? ensures Attended(d, d.threads[k]) {
      if k == i {
        OpeningAttends(c, d, i);
      } else {
        assert c.threads[k].id != c.threads[i].id;
        OtherJobs(c, d, job, c.threads[k]);
      }
    }
  }

  lemma OpeningAttends(c: Core, d: Core, i: nat)
    requires i < |c.threads| && |d.threads| == |c.threads| && c.threads[i].cluster in c.contexts && Attended(c, c.threads[i])
    requires d.slots == c.slots && d.lookup == c.lookup
    requires d.threads[i] == if Connection(c, c.threads[i].agent).None? then c.threads[i]
                             else c.threads[i].(tasks := c.threads[i].tasks + {c.nextTask})
    ensures Attended(d, d.threads[i])
  {
    assert Connection(c, c.threads[i].agent).Some? ==> c.nextTask in d.threads[i].tasks;
  }

  /** The end of a search takes its agent's threads further, and no other thread waits for it. */
  lemma LookedUpAttends(c: Core, found: set<string>)
    requires Sound(c) && AllAttended(c)
    ensures AllAttended(LookedUpStep(c, found))
  {
    hide EnsureAgent, AgentContexts.InUse, Linked;
    match c.lookup
    case NoLookup =>
    case Looking(agent) =>
      var d := c.(lookup := NoLookup, agents := map a | a in c.agents :: Info(a in found, true));
      SoundAfter(c, Aside(d));
      forall i | 0 <= i < |c.threads| && c.threads[i].status.Starting? && Some(c.threads[i].agent) != agent ensures Attended(d, d.threads[i]) {
        assert Attended(c, c.threads[i]);
      }
      match agent {
        case None => assert d == LookedUpStep(c, found);
        case Some(a) =>
          forall i | 0 <= i < |d.threads| && d.threads[i].status.Starting? && (d.threads[i].agent != a || d.threads[i].session.Some?)
            ensures Attended(d, d.threads[i])
          {
            SessionAttends(c, d, i, a);
          }
          EnsureAttends(d, a);
          assert !Searches(d, a);
      }
  }

  lemma SessionAttends(c: Core, d: Core, i: nat, agent: string)
    requires Linked(c) && i < |c.threads| && Attended(c, c.threads[i]) && d.slots == c.slots && d.jobs == c.jobs
    requires c.threads[i].agent != agent || c.threads[i].session.Some?
    requires c.lookup == Looking(Some(agent))
    ensures Attended(d, c.threads[i])
  {
    assert Tied(c.slots, c.threads[i]);
  }

  /** The end of an agent's start opens its threads' sessions, or fails them. */
  lemma AgentStartedAttends(c: Core, agent: string, task: nat, conn: Option<nat>)
    requires Sound(c) && AllAttended(c)
    ensures AllAttended(AgentStartedStep(c, agent, task, conn))
  {
    hide AgentContexts.InUse, OpenFrom, SweepAll;
    if agent in c.slots && c.slots[agent] == StartingSlot(task) {
      match conn
      case Some(k) =>
        var d := c.(slots := c.slots[agent := Ready(k)]);
        SoundAfter(c, Attach(agent, k));
        forall i | 0 <= i < |d.threads| && d.threads[i].status.Starting? && (d.threads[i].agent != agent || d.threads[i].session.Some?)
          ensures Attended(d, d.threads[i])
        {
          assert Tied(c.slots, c.threads[i]) && Attended(c, c.threads[i]);
        }
        ReadyAttends(d, agent);
      case None =>
        StillSweep(c, Abort(agent));
    }
  }

  lemma RefreshAttends(c: Core, d: Core)
    requires AllAttended(c) && |d.threads| == |c.threads| && d.slots == c.slots && d.jobs == c.jobs && d.lookup == Looking(None)
    requires forall i :: 0 <= i < |c.threads| ==>
               var t, u := c.threads[i], d.threads[i];
               u.status == t.status && u.agent == t.agent && u.id == t.id && u.tasks == t.tasks
    ensures AllAttended(d) <==> !exists i :: 0 <= i < |c.threads| && Needy(c, c.threads[i])
  {
    if i :| 0 <= i < |c.threads| && Needy(c, c.threads[i]) {
      assert !Attended(d, d.threads[i]);
    } else {
      forall i | 0 <= i < |d.threads| && d.threads[i].status.Starting? ensures Attended(d, d.threads[i]) {
        assert Attended(c, c.threads[i]) && !Needy(c, c.threads[i]);
      }
    }
  }

  lemma SettingsAttends(c: Core, allow: bool, configured: set<string>)
    requires AllAttended(c)
    ensures AllAttended(SettingsStep(c, allow, configured)) <==> !exists i :: 0 <= i < |c.threads| && Needy(c, c.threads[i])
  {
    hide Swept, SweepThreads, SweepFacts, AllAttended;
    SweepAt(c.threads, RevokeWrites);
    forall i | 0 <= i < |c.threads| ensures var t, u := c.threads[i], Swept(c.threads[i], RevokeWrites);
      u.status == t.status && u.agent == t.agent && u.id == t.id && u.tasks == t.tasks
    {
      RevokedStays(c.threads[i]);
    }
    RefreshAttends(c, SettingsStep(c, allow, configured));
  }

  lemma RevokedStays(t: Thread)
    ensures var u := Swept(t, RevokeWrites); u.status == t.status && u.agent == t.agent && u.id == t.id && u.tasks == t.tasks
  {
  }

  // ----- Any event -----

  /** In a state in which every starting thread is attended, an event leaves one without anything to
      wait for exactly when it begins a search that replaces one such a thread needs. */
  lemma StartingThreadsAreAttendedExactly(c: Core, e: Event)
    requires Ids(c) && Sound(c) && AllAttended(c)
    ensures AllAttended(Step(c, e)) <==> !ReplacesSearch(c, e)
  {
    hide StartThreadStep, RetryStep, SendStep, SignInStep, SignedInStep, LookedUpStep, AgentStartedStep, SettingsStep, RefreshStep,
         RestartReplaces, Replaces, Needy, Restarting, AllAttended, Sound, Ids;
    if StillEvent(c, e) {
      StillStep(c, e);
    } else {
      match e
      case StartThread(agent, cluster, cwd, first, resume) => StartThreadAttends(c, agent, cluster, cwd, first, resume);
      case Retry(id) => RetryAttends(c, id);
      case Send(id, prompt, wire) => SendAttends(c, id, prompt, wire);
      case SignIn(id) => SignInAttends(c, id);
      case SignedIn(job, ok) => SignedInAttends(c, job, ok);
      case LookedUp(found) => LookedUpAttends(c, found);
      case AgentStarted(agent, task, conn) => AgentStartedAttends(c, agent, task, conn);
      case SettingsChanged(allow, configured) => SettingsAttends(c, allow, configured);
      case RefreshAgents => RefreshedAttends(c);
    }
  }

  lemma RefreshedAttends(c: Core)
    requires AllAttended(c)
    ensures AllAttended(RefreshStep(c)) <==> !exists i :: 0 <= i < |c.threads| && Needy(c, c.threads[i])
  {
    RefreshAttends(c, RefreshStep(c));
  }

  // ----- Over any run -----

  /** No event of the run replaces a search that a starting thread needs. */
  ghost predicate Patient(c: Core, events: seq<Event>)
    decreases |events|
  {
    events == [] || (!ReplacesSearch(c, events[0]) && Patient(Step(c, events[0]), events[1..]))
  }

  lemma SoundStep(c: Core, e: Event)
    requires Ids(c) && Sound(c)
    ensures Ids(Step(c, e)) && Sound(Step(c, e))
  {
    hide Step, Do, Allowed, Sound, Ids;
    forall v, m | Ids(v) && Sound(v) && Good(v, m, NoCare) ensures Sound(Do(v, m)) {
      SoundAfter(v, m);
    }
    StepKeeps(Sound, c, e, NoCare);
  }

  lemma {:induction false} RunAttends(c: Core, events: seq<Event>)
    requires Ids(c) && Sound(c) && AllAttended(c) && Patient(c, events)
    ensures Ids(Run(c, events)) && Sound(Run(c, events)) && AllAttended(Run(c, events))
    decreases |events|
  {
    hide Step, Sound, AllAttended, Ids, ReplacesSearch;
    if events != [] {
      SoundStep(c, events[0]);
      StartingThreadsAreAttendedExactly(c, events[0]);
      RunAttends(Step(c, events[0]), events[1..]);
    }
  }

  /** After any run in which no search is replaced while a starting thread needs it: for every thread
      that starts, its agent is being looked up or started, or its session opens, or the user signs
      in. */
  lemma StartingThreadsAreAttended(configured: set<string>, allowWrites: bool, events: seq<Event>, i: nat)
    requires Patient(Fresh(configured, allowWrites), events)
    requires i < |Run(Fresh(configured, allowWrites), events).threads|
    ensures var c := Run(Fresh(configured, allowWrites), events);
            var t := c.threads[i];
            t.status.Starting? ==>
              || (t.agent !in c.slots && c.lookup == Looking(Some(t.agent)))
              || (t.agent in c.slots && c.slots[t.agent].StartingSlot?)
              || (Connection(c, t.agent).Some? && (t.tasks != {} || SignInJob(t.id) in c.jobs))
  {
    hide Run, Patient;
    RunAttends(Fresh(configured, allowWrites), events);
  }

  lemma StartsSearch(c: Core, agent: string)
    requires agent !in c.slots && agent in c.agents && !c.agents[agent].program && !c.agents[agent].checked
    ensures var d := StartThreadStep(c, agent, "cluster", "/work", None, None);
            && d.lookup == Looking(Some(agent)) && d.slots == c.slots && d.agents == c.agents && d.jobs == c.jobs
            && |d.threads| == |c.threads| + 1 && d.threads[..|c.threads|] == c.threads
            && d.threads[|c.threads|].agent == agent && d.threads[|c.threads|].status.Starting?
  {
  }

  lemma FindsOther(c: Core)
    requires c.lookup == Looking(Some("two")) && c.slots == map[] && c.agents.Keys == {"one", "two"}
    ensures var d := LookedUpStep(c, {"one", "two"});
            d.threads == c.threads && "one" !in d.slots && d.lookup.NoLookup? && d.jobs == c.jobs
  {
  }

  /** Two threads are opened while their agents have not been looked up: the second search replaces
      the first, so the first thread goes on starting although nothing starts its agent. */
  lemma ReplacedTooEarly()
    ensures var c := Run(Fresh({"one", "two"}, false),
                         [StartThread("one", "cluster", "/work", None, None), StartThread("two", "cluster", "/work", None, None),
                          LookedUp({"one", "two"})]);
            c.threads[0].agent == "one" && c.threads[0].status.Starting? && "one" !in c.slots && c.lookup.NoLookup? && c.jobs == []
  {
    hide StartThreadStep, LookedUpStep;
    var c0 := Fresh({"one", "two"}, false);
    StartsSearch(c0, "one");
    var c1 := StartThreadStep(c0, "one", "cluster", "/work", None, None);
    StartsSearch(c1, "two");
    var c2 := StartThreadStep(c1, "two", "cluster", "/work", None, None);
    FindsOther(c2);
    AgentProcesses.ThreeSteps(c0, StartThread("one", "cluster", "/work", None, None), StartThread("two", "cluster", "/work", None, None),
               LookedUp({"one", "two"}));
  }
}
