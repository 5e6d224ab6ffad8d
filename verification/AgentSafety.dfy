/** What every move keeps holds in every state that a run reaches. */
module AgentSafety {
  import opened AgentTypes
  import opened AgentSteps
  import opened AgentMoves
  import opened AgentRuns
  import opened AgentEffects
  import Transcripts

  lemma SameThread(c: Core, m: Move)
    requires Allowed(c, m) && Local(m)
    ensures var t, u := c.threads[m.i], After(c, m);
            u.id == t.id && u.agent == t.agent && u.cluster == t.cluster
  {
  }

  lemma SameSwept(t: Thread, s: Sweep)
    ensures Swept(t, s).id == t.id && Swept(t, s).agent == t.agent && Swept(t, s).cluster == t.cluster
  {
  }

  lemma SameIds(c: Core, d: Core)
    requires Ids(c) && |d.threads| == |c.threads| && c.nextThread == d.nextThread
    requires forall i :: 0 <= i < |c.threads| ==> d.threads[i].id == c.threads[i].id
    ensures Ids(d)
  {
  }

  lemma IdsKept(c: Core, m: Move)
    requires Ids(c) && Allowed(c, m)
    ensures Ids(Do(c, m))
  {
    hide Do, After, Facts, Swept, SweepThreads, Ids;
    if Local(m) {
      LocalDoes(c, m);
      SameThread(c, m);
      SameIds(c, Do(c, m));
    } else if SweepOf(m).Some? {
      SweepDoes(c, m);
      SweepAt(c.threads, SweepOf(m).value);
      forall i | 0 <= i < |c.threads| ensures Do(c, m).threads[i].id == c.threads[i].id {
        SameSwept(c.threads[i], SweepOf(m).value);
      }
      SameIds(c, Do(c, m));
    } else {
      OtherIds(c, m);
    }
  }

  lemma OtherIds(c: Core, m: Move)
    requires Ids(c) && Allowed(c, m) && !Local(m) && SweepOf(m).None?
    ensures Ids(Do(c, m))
  {
    hide Do, Facts;
    RestDoes(c, m);
    assert m.Add? ==> m.thread.id == c.nextThread + 1;
  }

  ghost predicate Keeps(inv: Core -> bool, care: Care) {
    forall c, m :: Ids(c) && inv(c) && Good(c, m, care) ==> inv(Do(c, m))
  }

  /** Every event of the run is fine where it happens. */
  ghost predicate FineRun(c: Core, events: seq<Event>, care: Care)
    decreases |events|
  {
    events == [] || (Fine(c, events[0], care) && FineRun(Step(c, events[0]), events[1..], care))
  }

  lemma {:induction false} ChainKeeps(inv: Core -> bool, c: Core, ms: seq<Move>, d: Core, care: Care)
    requires Keeps(inv, care) && Ids(c) && inv(c) && Chain(c, ms, d, care)
    ensures Ids(d) && inv(d)
    decreases |ms|
  {
    hide Do, Allowed, Orderly, Proper, Ids;
    if ms != [] {
      IdsKept(c, ms[0]);
      ChainKeeps(inv, Do(c, ms[0]), ms[1..], d, care);
    }
  }

  lemma StepKeeps(inv: Core -> bool, c: Core, e: Event, care: Care)
    requires Keeps(inv, care) && Ids(c) && inv(c) && Fine(c, e, care)
    ensures Ids(Step(c, e)) && inv(Step(c, e))
  {
    hide Step, Keeps, Ids, Fine, Chain;
    var ms := StepMoves(c, e, care);
    ChainKeeps(inv, c, ms, Step(c, e), care);
  }

  lemma {:induction false} RunKeeps(inv: Core -> bool, c: Core, events: seq<Event>, care: Care)
    requires Keeps(inv, care) && Ids(c) && inv(c) && FineRun(c, events, care)
    ensures Ids(Run(c, events)) && inv(Run(c, events))
    decreases |events|
  {
    hide Step, Keeps, Ids, Fine;
    if events != [] {
      StepKeeps(inv, c, events[0], care);
      RunKeeps(inv, Step(c, events[0]), events[1..], care);
    }
  }

  const NoCare: Care := Care(false, false)

  lemma {:induction false} AnyRun(c: Core, events: seq<Event>)
    ensures FineRun(c, events, NoCare)
    decreases |events|
  {
    hide Step;
    if events != [] {
      AnyRun(Step(c, events[0]), events[1..]);
    }
  }
}
