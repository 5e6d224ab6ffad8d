/** Cards arrive in the order of their ids. */
module AgentOrder {
  import opened AgentTypes
  import opened AgentSteps
  import opened AgentMoves
  import opened AgentRuns
  import opened AgentEffects
  import opened AgentSafety
  import opened AgentWires
  import AgentCards

  ghost predicate WasThere(before: Core, p: Pending) {
    exists i :: 0 <= i < |before.threads| && p in before.threads[i].pending
  }

  ghost predicate Newer(before: Core, ps: seq<Pending>) {
    forall p :: p in ps ==> WasThere(before, p) || p.id > before.nextPending
  }

  /** Every card was there before, or has an id that was not given yet. */
  ghost predicate NewerThan(before: Core, c: Core) {
    && before.nextPending <= c.nextPending
    && (forall i :: 0 <= i < |c.threads| ==> Newer(before, c.threads[i].pending))
  }

  lemma FewerNewer(before: Core, ps: seq<Pending>, qs: seq<Pending>)
    requires Newer(before, ps) && (forall p :: p in qs ==> p in ps)
    ensures Newer(before, qs)
  {
  }

  lemma PushNewer(before: Core, c: Core, m: Move)
    requires before.nextPending <= c.nextPending && Allowed(c, m) && m.PushCard? && Newer(before, c.threads[m.i].pending)
    ensures Newer(before, After(c, m).pending)
  {
    hide WasThere;
    forall p | p in After(c, m).pending ensures WasThere(before, p) || p.id > before.nextPending {
      assert p in c.threads[m.i].pending || p == NewCard(c, m.kind, m.responder, m.launch, m.approval);
    }
  }

  lemma MoveKept(before: Core, c: Core, m: Move)
    requires NewerThan(before, c) && Allowed(c, m)
    ensures NewerThan(before, Do(c, m))
  {
    hide Do, After, Facts, Swept, SweepThreads, Newer;
    var d := Do(c, m);
    AgentCards.CounterGrows(c, m);
    if Local(m) {
      LocalDoes(c, m);
      if m.PushCard? {
        PushNewer(before, c, m);
      } else {
        LocalFewer(c, m);
        FewerNewer(before, c.threads[m.i].pending, After(c, m).pending);
      }
    } else if SweepOf(m).Some? {
      SweepDoes(c, m);
      SweepAt(c.threads, SweepOf(m).value);
      forall i | 0 <= i < |d.threads| ensures Newer(before, d.threads[i].pending) {
        SweptFewer(c.threads[i], SweepOf(m).value);
        FewerNewer(before, c.threads[i].pending, d.threads[i].pending);
      }
    } else {
      OtherNewer(before, c, m);
    }
  }

  lemma OtherNewer(before: Core, c: Core, m: Move)
    requires NewerThan(before, c) && Allowed(c, m) && !Local(m) && SweepOf(m).None?
    ensures NewerThan(before, Do(c, m))
  {
    hide Do, Facts, Newer;
    RestDoes(c, m);
    if m.Add? {
      NoneNewer(before);
    }
  }

  lemma NoneNewer(before: Core)
    ensures Newer(before, [])
  {
  }

  /** From any state on, over any run: a card that waits later was waiting at the start, unchanged,
      or its id is above every id given until then. So ids order cards by arrival. */
  lemma CardsArriveInOrder(before: Core, events: seq<Event>)
    requires Ids(before)
    ensures var c := Run(before, events);
            && before.nextPending <= c.nextPending
            && forall i, p :: 0 <= i < |c.threads| && p in c.threads[i].pending
                 ==> p.id > before.nextPending || exists k :: 0 <= k < |before.threads| && p in before.threads[k].pending
  {
    hide Run, Do, Step;
    AnyRun(before, events);
    var inv := d => NewerThan(before, d);
    forall c, m | Ids(c) && inv(c) && Good(c, m, NoCare) ensures inv(Do(c, m)) {
      MoveKept(before, c, m);
    }
    RunKeeps(inv, before, events, NoCare);
    var c := Run(before, events);
    forall i, p | 0 <= i < |c.threads| && p in c.threads[i].pending
      ensures p.id > before.nextPending || exists k :: 0 <= k < |before.threads| && p in before.threads[k].pending
    {
      assert Newer(before, c.threads[i].pending);
    }
  }

}
