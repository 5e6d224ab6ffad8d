/** What a conversation shows stays where it is. */
module AgentEntries {
  import opened Wrappers
  import opened AgentTypes
  import opened AgentSteps
  import opened AgentMoves
  import opened AgentRuns
  import opened AgentEffects
  import opened AgentSafety
  import Transcripts

  /** A transcript goes on: every entry keeps its position, and tool calls keep entries of their own. */
  ghost predicate GoesOn(a: seq<Transcripts.Entry>, b: seq<Transcripts.Entry>) {
    Transcripts.Keeps(a, b) && (Transcripts.UniqueTools(a) ==> Transcripts.UniqueTools(b))
  }

  lemma SameGoesOn(es: seq<Transcripts.Entry>)
    ensures GoesOn(es, es)
  {
    assert forall i :: 0 <= i < |es| ==> Transcripts.SameEntry(es[i], es[i]);
  }

  lemma MoreGoesOn(es: seq<Transcripts.Entry>, more: seq<Transcripts.Entry>)
    requires forall i :: 0 <= i < |more| ==> !more[i].ToolEntry?
    ensures GoesOn(es, es + more)
  {
    assert forall i :: 0 <= i < |es| ==> Transcripts.SameEntry(es[i], es[i]);
  }

  lemma SettledGoesOn(es: seq<Transcripts.Entry>)
    ensures GoesOn(es, Transcripts.Settled(es))
  {
    Transcripts.SettledKeeps(es);
    forall i | 0 <= i < |es| ensures Transcripts.SameEntry(es[i], Transcripts.Settled(es)[i]) {
    }
  }

  lemma GoesOnTwice(a: seq<Transcripts.Entry>, b: seq<Transcripts.Entry>, c: seq<Transcripts.Entry>)
    requires GoesOn(a, b) && GoesOn(b, c)
    ensures GoesOn(a, c)
  {
    hide Transcripts.Keeps, Transcripts.UniqueTools;
    Transcripts.KeepsChain(a, b, c);
  }

  lemma RestedGoesOn(t: Thread, result: TurnResult)
    ensures GoesOn(t.entries, Rested(t, result).entries)
  {
    hide GoesOn, Transcripts.Settled;
    var settled := Transcripts.Settled(t.entries);
    SettledGoesOn(t.entries);
    MoreGoesOn(settled, TurnNotice(result));
    GoesOnTwice(t.entries, settled, Rested(t, result).entries);
  }

  lemma LocalGoesOn(c: Core, m: Move)
    requires Allowed(c, m) && Local(m)
    ensures GoesOn(c.threads[m.i].entries, After(c, m).entries)
  {
    hide Transcripts.Settled, Transcripts.Keeps, Transcripts.UniqueTools, Rested, Kept, CoveredBy, Grants, TurnNotice;
    var t := c.threads[m.i];
    SameGoesOn(t.entries);
    match m
    case Enqueue(_, p) => MoreGoesOn(t.entries, [Transcripts.User(p.text, p.chips)]);
    case HandFails(_, _) => RestedGoesOn(Busy(t), AgentMoves.ClosedError());
    case Rest(_, _, result) => RestedGoesOn(t, result);
    case _ =>
  }

  lemma SweptGoesOn(t: Thread, s: Sweep)
    ensures GoesOn(t.entries, Swept(t, s).entries)
  {
    hide Transcripts.Settled, Kept, GoesOn;
    SameGoesOn(t.entries);
    SettledGoesOn(t.entries);
  }

  /** Every conversation there was and is still open goes on from what it showed. */
  ghost predicate AllGoOn(before: Core, c: Core) {
    && before.nextThread <= c.nextThread
    && (forall i, j :: 0 <= i < |before.threads| && 0 <= j < |c.threads| && before.threads[i].id == c.threads[j].id
          ==> GoesOn(before.threads[i].entries, c.threads[j].entries))
  }

  /** Every thread after the move is new, or goes on from one before it. */
  ghost predicate Further(c: Core, d: Core) {
    && c.nextThread <= d.nextThread
    && forall j :: 0 <= j < |d.threads| ==>
         || d.threads[j].id > c.nextThread
         || exists k :: 0 <= k < |c.threads| && c.threads[k].id == d.threads[j].id && GoesOn(c.threads[k].entries, d.threads[j].entries)
  }

  /** Each thread goes on, and a new one has a new id. */
  lemma OneFurther(before: Core, c: Core, d: Core)
    requires Ids(before) && AllGoOn(before, c) && Further(c, d)
    ensures AllGoOn(before, d)
  {
    hide GoesOn;
    forall i, j | 0 <= i < |before.threads| && 0 <= j < |d.threads| && before.threads[i].id == d.threads[j].id
      ensures GoesOn(before.threads[i].entries, d.threads[j].entries)
    {
      var k :| 0 <= k < |c.threads| && c.threads[k].id == d.threads[j].id && GoesOn(c.threads[k].entries, d.threads[j].entries);
      GoesOnTwice(before.threads[i].entries, c.threads[k].entries, d.threads[j].entries);
    }
  }

  lemma MoveKept(before: Core, c: Core, m: Move)
    requires Ids(before) && AllGoOn(before, c) && Allowed(c, m)
    ensures AllGoOn(before, Do(c, m))
  {
    hide Do, Further, AllGoOn, Ids;
    if Local(m) {
      LocalGoOn(c, m);
    } else if SweepOf(m).Some? {
      SweepGoOn(c, m);
    } else {
      OthersGoOn(c, m);
    }
    OneFurther(before, c, Do(c, m));
  }

  lemma LocalGoOn(c: Core, m: Move)
    requires Allowed(c, m) && Local(m)
    ensures Further(c, Do(c, m))
  {
    hide Do, After, Facts, GoesOn;
    var d := Do(c, m);
    hide Allowed;
    LocalDoes(c, m);
    SameThread(c, m);
    LocalGoesOn(c, m);
    forall j | 0 <= j < |d.threads| ensures c.threads[j].id == d.threads[j].id && GoesOn(c.threads[j].entries, d.threads[j].entries) {
      SameGoesOn(c.threads[j].entries);
    }
  }

  lemma SweepGoOn(c: Core, m: Move)
    requires Allowed(c, m) && SweepOf(m).Some?
    ensures Further(c, Do(c, m))
  {
    hide Do, Facts, Swept, SweepThreads, GoesOn;
    var d := Do(c, m);
    SweepDoes(c, m);
    SweepAt(c.threads, SweepOf(m).value);
    forall j | 0 <= j < |d.threads| ensures c.threads[j].id == d.threads[j].id && GoesOn(c.threads[j].entries, d.threads[j].entries) {
      SameSwept(c.threads[j], SweepOf(m).value);
      SweptGoesOn(c.threads[j], SweepOf(m).value);
    }
  }

  lemma OthersGoOn(c: Core, m: Move)
    requires Allowed(c, m) && !Local(m) && SweepOf(m).None?
    ensures Further(c, Do(c, m))
  {
    hide Do, Facts, GoesOn;
    var d := Do(c, m);
    RestDoes(c, m);
    assert m.Add? ==> m.thread.id == c.nextThread + 1;
    forall j | 0 <= j < |d.threads| && !(m.Add? && j == |c.threads|)
      ensures exists k :: 0 <= k < |c.threads| && c.threads[k].id == d.threads[j].id && GoesOn(c.threads[k].entries, d.threads[j].entries)
    {
      var k := if m.Remove? && j >= m.i then j + 1 else j;
      assert d.threads[j] == c.threads[k];
      SameGoesOn(c.threads[k].entries);
    }
  }

  /** From any state on, over any run, with the user's prompts, notices, updates, ends of turns and of
      connections in any order: a conversation that is still open shows every entry where it was, of
      the same kind, its text perhaps longer, its tool call the same; and tool calls that had entries of
      their own still have. */
  lemma EntriesKeepTheirPlaces(before: Core, events: seq<Event>, i: nat, j: nat)
    requires Ids(before) && i < |before.threads|
    requires var c := Run(before, events); j < |c.threads| && c.threads[j].id == before.threads[i].id
    ensures var a, b := before.threads[i].entries, Run(before, events).threads[j].entries;
            Transcripts.Keeps(a, b) && (Transcripts.UniqueTools(a) ==> Transcripts.UniqueTools(b))
  {
    hide Run, Do, Step, Allowed, Transcripts.Keeps, Transcripts.UniqueTools;
    AnyRun(before, events);
    StartGoesOn(before);
    forall c, m | Ids(c) && AllGoOn(before, c) && Good(c, m, NoCare) ensures AllGoOn(before, Do(c, m)) {
      MoveKept(before, c, m);
    }
    RunKeeps((c: Core) => AllGoOn(before, c), before, events, NoCare);
  }

  lemma StartGoesOn(before: Core)
    requires Ids(before)
    ensures AllGoOn(before, before)
  {
    hide GoesOn;
    forall i, j | 0 <= i < |before.threads| && 0 <= j < |before.threads| && before.threads[i].id == before.threads[j].id
      ensures GoesOn(before.threads[i].entries, before.threads[j].entries)
    {
      assert i == j;
      SameGoesOn(before.threads[i].entries);
    }
  }
}
