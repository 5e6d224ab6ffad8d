/** No thread is stranded: what a thread counts on is there. */
module AgentLinks {
  import opened Wrappers
  import opened AgentTypes
  import opened AgentSteps
  import opened AgentMoves
  import opened AgentRuns
  import opened AgentEffects
  import opened AgentSafety
  import Transcripts

  /** A thread with a session, or with one opening, has a connection; only such a thread works. */
  ghost predicate Tied(slots: map<string, Slot>, t: Thread) {
    && (t.session.Some? || t.tasks != {} ==> t.agent in slots && slots[t.agent].Ready?)
    && (t.status.Running? ==> t.session.Some?)
  }

  ghost predicate NoneLost(log: seq<Fact>) {
    forall i :: 0 <= i < |log| ==> !log[i].Lost?
  }

  ghost predicate Linked(c: Core) {
    && (forall i :: 0 <= i < |c.threads| ==> Tied(c.slots, c.threads[i]))
    && NoneLost(c.log)
  }

  // ----- Kept by every move -----

  lemma LocalTied(c: Core, m: Move)
    requires Allowed(c, m) && Local(m) && Tied(c.slots, c.threads[m.i])
    ensures Tied(c.slots, After(c, m)) && !m.Lose?
  {
    hide Transcripts.Settled, TurnNotice, CoveredBy, Grants, Kept;
  }

  lemma SweptTied(slots: map<string, Slot>, t: Thread, s: Sweep)
    requires Tied(slots, t)
    ensures Tied(slots, Swept(t, s))
    ensures s.AgentGone? ==> Tied(slots - {s.agent}, Swept(t, s))
    ensures s.StartFailed? && s.agent in slots && slots[s.agent].StartingSlot? ==> Tied(slots - {s.agent}, Swept(t, s))
    ensures s.Missing? && s.agent !in slots ==> Tied(slots, Swept(t, s))
  {
    hide Transcripts.Settled, Kept;
  }

  lemma {:induction false} WithdrawNotLost(id: nat, ps: seq<Prompt>)
    ensures NoneLost(WithdrawAll(id, ps))
  {
    if ps != [] {
      WithdrawNotLost(id, ps[1..]);
    }
  }

  lemma AppendNotLost(a: seq<Fact>, b: seq<Fact>)
    requires NoneLost(a) && NoneLost(b)
    ensures NoneLost(a + b)
  {
  }

  lemma FactsNotLost(c: Core, m: Move)
    requires Allowed(c, m) && !m.Lose?
    ensures NoneLost(Facts(c, m))
  {
    hide CancelAll, SiftFacts, SweepFacts, LaunchOf, Warned, CoveredBy, ItemFacts, WithdrawAll, Grants, ChoiceOf;
    if !Telling(m) {
      QuietFacts(c, m);
    } else if m.Withdraw? {
      WithdrawNotLost(c.threads[m.i].id, c.threads[m.i].queued);
      CancelSettles(c.threads[m.i].pending);
      AppendNotLost(WithdrawAll(c.threads[m.i].id, c.threads[m.i].queued), WithdrawnCards(c, m.i));
    } else if m.HandFails? {
      CancelSettles(c.threads[m.i].pending);
    } else if m.TakeAnswer? {
      AnswerNotLost(c, c.threads[m.i], c.threads[m.i].pending[m.j], m.answer);
    }
  }

  lemma AnswerNotLost(c: Core, t: Thread, item: Pending, answer: Answer)
    ensures NoneLost(AnswerFacts(c, t, item, answer))
  {
    hide ChoiceOf, Grants;
  }

  lemma LocalKept(c: Core, m: Move)
    requires Linked(c) && Allowed(c, m) && Local(m)
    ensures Linked(Do(c, m))
  {
    hide Do, After, Facts, Tied, NoneLost;
    LocalDoes(c, m);
    LocalTied(c, m);
    FactsNotLost(c, m);
    AppendNotLost(c.log, Facts(c, m));
  }

  lemma SweepKept(c: Core, m: Move)
    requires Linked(c) && Allowed(c, m) && SweepOf(m).Some?
    ensures Linked(Do(c, m))
  {
    hide Do, Facts, Swept, SweepThreads, Tied, NoneLost;
    var s := SweepOf(m).value;
    SweepDoes(c, m);
    SweepAt(c.threads, s);
    forall i | 0 <= i < |c.threads| ensures Tied(Do(c, m).slots, Swept(c.threads[i], s)) {
      SweptTied(c.slots, c.threads[i], s);
    }
    FactsNotLost(c, m);
    AppendNotLost(c.log, Facts(c, m));
  }

  lemma OtherKept(c: Core, m: Move)
    requires Linked(c) && Allowed(c, m) && !Local(m) && SweepOf(m).None? && !m.Remove?
    ensures Linked(Do(c, m))
  {
    hide Do, Facts, NoneLost;
    RestDoes(c, m);
    FactsNotLost(c, m);
    AppendNotLost(c.log, Facts(c, m));
    if m.Begin? || m.Attach? {
      SlotsOf(c, m);
    }
  }

  lemma SlotsOf(c: Core, m: Move)
    requires Allowed(c, m) && (m.Begin? || m.Attach?)
    ensures m.Begin? ==> m.agent !in c.slots && Do(c, m).slots == c.slots[m.agent := StartingSlot(c.nextTask)]
    ensures m.Attach? ==> Do(c, m).slots == c.slots[m.agent := Ready(m.conn)]
  {
  }

  /** Closing the last thread of an agent ends the agent, and no thread is left to miss it. */
  lemma RemoveKept(c: Core, m: Move)
    requires Linked(c) && Allowed(c, m) && m.Remove?
    ensures Linked(Do(c, m))
  {
    hide Facts, NoneLost;
    var d, rest := Do(c, m), Removed(c.threads, m.i);
    RestDoes(c, m);
    FactsNotLost(c, m);
    AppendNotLost(c.log, Facts(c, m));
    assert d.threads == rest;
    var agent := c.threads[m.i].agent;
    FirstIsFirst(rest, AnyOf(agent));
    forall j | 0 <= j < |rest| ensures Tied(d.slots, rest[j]) {
      assert rest[j] == c.threads[if j < m.i then j else j + 1];
      assert Tied(c.slots, rest[j]);
      assert Fits(rest[j], AnyOf(agent)) <==> rest[j].agent == agent;
    }
  }

  lemma LinkKept(c: Core, m: Move)
    requires Linked(c) && Allowed(c, m)
    ensures Linked(Do(c, m))
  {
    hide Do, Linked;
    if Local(m) {
      LocalKept(c, m);
    } else if SweepOf(m).Some? {
      SweepKept(c, m);
    } else if m.Remove? {
      RemoveKept(c, m);
    } else {
      OtherKept(c, m);
    }
  }

  // ----- Over any run -----

  lemma RunLinked(configured: set<string>, allowWrites: bool, events: seq<Event>)
    ensures Linked(Run(Fresh(configured, allowWrites), events)) && Ids(Run(Fresh(configured, allowWrites), events))
  {
    hide Run, Do, Step;
    var start := Fresh(configured, allowWrites);
    AnyRun(start, events);
    forall c, m | Ids(c) && Linked(c) && Good(c, m, NoCare) ensures Linked(Do(c, m)) {
      LinkKept(c, m);
    }
    RunKeeps(Linked, start, events, NoCare);
  }

  /** After any run: a thread with a session has a connection, a thread at work has both, and no
      prompt ever left a queue without a connection to go to. */
  lemma NoThreadIsStranded(configured: set<string>, allowWrites: bool, events: seq<Event>)
    ensures var c := Run(Fresh(configured, allowWrites), events);
            && (forall i :: 0 <= i < |c.threads| && c.threads[i].session.Some? ==> Connection(c, c.threads[i].agent).Some?)
            && (forall i :: 0 <= i < |c.threads| && c.threads[i].status.Running? ==> c.threads[i].session.Some?)
            && (forall i :: 0 <= i < |c.log| ==> !c.log[i].Lost?)
  {
    hide Run;
    RunLinked(configured, allowWrites, events);
  }

  /** Once the end of an agent's connection is handled, every thread of it is ended, with no
      session, no card and nothing opening, and it stays out of the slots; the other agents'
      threads are as they were. */
  lemma ClosedEndsItsThreads(c: Core, agent: string)
    ensures var d := Step(c, Call(agent, ClosedCall, None));
            && agent !in d.slots && |d.threads| == |c.threads|
            && forall i :: 0 <= i < |c.threads| ==>
                 if c.threads[i].agent == agent then
                   var t := d.threads[i];
                   t.status.Ended? && t.session.None? && t.pending == [] && t.tasks == {} && t.queued == c.threads[i].queued
                 else d.threads[i] == c.threads[i]
  {
    SweepAt(c.threads, AgentGone(agent));
  }
}
