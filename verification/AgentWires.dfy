/** Requests wait only on threads of the agent whose connection brought them. */
module AgentWires {
  import opened Wrappers
  import opened AgentTypes
  import opened AgentSteps
  import opened AgentMoves
  import opened AgentRuns
  import opened AgentEffects
  import opened AgentSafety
  import opened AgentLinks
  import Transcripts

  /** Every request waiting on the thread came over its agent's present connection. */
  ghost predicate OwnCards(slots: map<string, Slot>, t: Thread) {
    forall p :: p in t.pending && p.responder.Some?
      ==> t.agent in slots && slots[t.agent] == Ready(p.responder.value.conn)
  }

  ghost predicate Apart(slots: map<string, Slot>) {
    forall a, b :: a in slots && b in slots && a != b && slots[a].Ready? ==> slots[a] != slots[b]
  }

  ghost predicate Wired(c: Core) {
    && Apart(c.slots)
    && (forall i :: 0 <= i < |c.threads| ==> OwnCards(c.slots, c.threads[i]))
  }

  ghost predicate Tight(c: Core) { Linked(c) && Wired(c) }

  const WithCare: Care := Care(false, true)

  lemma {:induction false} KeptAreCards(ps: seq<Pending>, sieve: Sieve)
    ensures forall p :: p in Kept(ps, sieve) ==> p in ps && Stays(p, sieve)
  {
    if ps != [] {
      KeptAreCards(ps[..|ps| - 1], sieve);
    }
  }

  lemma FewerOwn(slots: map<string, Slot>, t: Thread, u: Thread)
    requires OwnCards(slots, t) && u.agent == t.agent && (forall p :: p in u.pending ==> p in t.pending)
    ensures OwnCards(slots, u)
  {
  }

  /** Apart from a new card, a local move only drops cards. */
  lemma LocalFewer(c: Core, m: Move)
    requires Allowed(c, m) && Local(m) && !m.PushCard?
    ensures forall p :: p in After(c, m).pending ==> p in c.threads[m.i].pending
  {
    hide Transcripts.Settled, TurnNotice, CoveredBy, Grants, Kept;
    if m.Writes? {
      KeptAreCards(c.threads[m.i].pending, NoChanges);
    }
  }

  lemma SweptFewer(t: Thread, s: Sweep)
    ensures forall p :: p in Swept(t, s).pending ==> p in t.pending
  {
    hide Transcripts.Settled, Kept;
    KeptAreCards(t.pending, NoChanges);
    if s.PruneChanges? {
      KeptAreCards(t.pending, LiveChanges(s.closed));
    } else if s.UrlDone? {
      KeptAreCards(t.pending, NotUrl(s.elicitation));
    }
  }

  lemma PushOwn(c: Core, m: Move)
    requires Tight(c) && Good(c, m, WithCare) && m.PushCard?
    ensures OwnCards(c.slots, After(c, m))
  {
    assert Tied(c.slots, c.threads[m.i]);
    assert OwnCards(c.slots, c.threads[m.i]);
  }

  lemma LocalKeeps(c: Core, m: Move)
    requires Tight(c) && Good(c, m, WithCare) && Local(m)
    ensures Wired(Do(c, m))
  {
    hide Do, After, Facts, OwnCards, Linked;
    LocalDoes(c, m);
    SameThread(c, m);
    if m.PushCard? {
      PushOwn(c, m);
    } else {
      LocalFewer(c, m);
      FewerOwn(c.slots, c.threads[m.i], After(c, m));
    }
  }

  /** The slot that goes away is that of the swept threads, or has no requests. */
  lemma SweptOwn(slots: map<string, Slot>, t: Thread, s: Sweep, after: map<string, Slot>)
    requires OwnCards(slots, t)
    requires after == slots || (s.AgentGone? && after == slots - {s.agent})
             || (s.StartFailed? && s.agent in slots && !slots[s.agent].Ready? && after == slots - {s.agent})
    ensures OwnCards(after, Swept(t, s))
  {
    hide Transcripts.Settled, Kept;
    SweptFewer(t, s);
  }

  lemma SweepKeeps(c: Core, m: Move)
    requires Wired(c) && Allowed(c, m) && SweepOf(m).Some?
    ensures Wired(Do(c, m))
  {
    hide Do, Facts, Swept, SweepThreads, OwnCards;
    var s := SweepOf(m).value;
    SweepDoes(c, m);
    SweepAt(c.threads, s);
    forall i | 0 <= i < |c.threads| ensures OwnCards(Do(c, m).slots, Swept(c.threads[i], s)) {
      SweptOwn(c.slots, c.threads[i], s, Do(c, m).slots);
    }
  }

  lemma SlotOwn(slots: map<string, Slot>, t: Thread, agent: string, after: map<string, Slot>)
    requires OwnCards(slots, t)
    requires (forall a :: a != agent ==> (a in after <==> a in slots) && (a in after ==> after[a] == slots[a]))
    requires t.agent == agent ==> !(agent in slots && slots[agent].Ready?)
    ensures OwnCards(after, t)
  {
  }

  lemma OtherKeeps(c: Core, m: Move)
    requires Wired(c) && Good(c, m, WithCare) && !Local(m) && SweepOf(m).None? && !m.Remove?
    ensures Wired(Do(c, m))
  {
    hide Do, Facts, OwnCards;
    RestDoes(c, m);
    if m.Begin? || m.Attach? {
      SlotsOf(c, m);
      forall i | 0 <= i < |c.threads| ensures OwnCards(Do(c, m).slots, c.threads[i]) {
        SlotOwn(c.slots, c.threads[i], m.agent, Do(c, m).slots);
      }
    } else if m.Add? {
      NewOwns(c.slots, m.thread);
    }
  }

  lemma NewOwns(slots: map<string, Slot>, t: Thread)
    requires t.pending == []
    ensures OwnCards(slots, t)
  {
  }

  lemma RemoveKeeps(c: Core, m: Move)
    requires Wired(c) && Allowed(c, m) && m.Remove?
    ensures Wired(Do(c, m))
  {
    hide Facts, OwnCards;
    var d, rest := Do(c, m), Removed(c.threads, m.i);
    RestDoes(c, m);
    var agent := c.threads[m.i].agent;
    FirstIsFirst(rest, AnyOf(agent));
    assert d.slots == c.slots || d.slots == c.slots - {agent};
    forall j | 0 <= j < |rest| ensures OwnCards(d.slots, rest[j]) {
      assert rest[j] == c.threads[if j < m.i then j else j + 1];
      assert OwnCards(c.slots, rest[j]);
      assert Fits(rest[j], AnyOf(agent)) <==> rest[j].agent == agent;
      if d.slots != c.slots {
        SlotOwn(c.slots, rest[j], agent, d.slots);
      }
    }
  }

  lemma TightKept(c: Core, m: Move)
    requires Tight(c) && Good(c, m, WithCare)
    ensures Tight(Do(c, m))
  {
    hide Do, Linked, Wired;
    LinkKept(c, m);
    if Local(m) {
      LocalKeeps(c, m);
    } else if SweepOf(m).Some? {
      SweepKeeps(c, m);
    } else if m.Remove? {
      RemoveKeeps(c, m);
    } else {
      OtherKeeps(c, m);
    }
  }

  lemma RunTight(configured: set<string>, allowWrites: bool, events: seq<Event>)
    requires FineRun(Fresh(configured, allowWrites), events, WithCare)
    ensures Tight(Run(Fresh(configured, allowWrites), events))
  {
    hide Run, Do, Step, FineRun;
    var start := Fresh(configured, allowWrites);
    forall c, m | Ids(c) && Tight(c) && Good(c, m, WithCare) ensures Tight(Do(c, m)) {
      TightKept(c, m);
    }
    RunKeeps(Tight, start, events, WithCare);
  }

  /** When the end of a connection is handled, no request of that connection is left waiting,
      on any thread. */
  lemma ClosedLeavesNoRequest(configured: set<string>, allowWrites: bool, events: seq<Event>, agent: string, conn: nat)
    requires FineRun(Fresh(configured, allowWrites), events, WithCare)
    requires Connection(Run(Fresh(configured, allowWrites), events), agent) == Some(conn)
    ensures var d := Step(Run(Fresh(configured, allowWrites), events), Call(agent, ClosedCall, None));
            forall i, p :: 0 <= i < |d.threads| && p in d.threads[i].pending && p.responder.Some? ==> p.responder.value.conn != conn
  {
    hide Run, FineRun, Swept, SweepThreads, SweepFacts;
    var c := Run(Fresh(configured, allowWrites), events);
    RunTight(configured, allowWrites, events);
    var d := Step(c, Call(agent, ClosedCall, None));
    var gone := AgentGone(agent);
    SweepAt(c.threads, gone);
    forall i, p | 0 <= i < |d.threads| && p in d.threads[i].pending && p.responder.Some?
      ensures p.responder.value.conn != conn
    {
      assert d.threads[i] == Swept(c.threads[i], gone);
      OthersKeep(c.threads[i], agent);
      assert OwnCards(c.slots, c.threads[i]);
    }
  }

  lemma OthersKeep(t: Thread, agent: string)
    ensures if t.agent == agent then Swept(t, AgentGone(agent)).pending == [] else Swept(t, AgentGone(agent)) == t
  {
  }
}
