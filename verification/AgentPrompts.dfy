/** Prompts are conserved: what the user asks leaves the queue once, in order. */
module AgentPrompts {
  import opened Wrappers
  import opened AgentTypes
  import opened AgentSteps
  import opened AgentMoves
  import opened AgentRuns
  import opened AgentEffects
  import opened AgentSafety
  import AgentLinks
  import Text
  import Transcripts

  function AskedBy(f: Fact, id: nat): seq<Prompt> {
    match f
    case Asked(thread, p) => if thread == id then [p] else []
    case _ => []
  }

  function LeftBy(f: Fact, id: nat): seq<Prompt> {
    match f
    case Handed(thread, p, _, _, _) => if thread == id then [p] else []
    case Withdrawn(thread, p) => if thread == id then [p] else []
    case Lost(thread, p) => if thread == id then [p] else []
    case _ => []
  }

  /** The prompts given to the thread, in order. */
  function Asks(log: seq<Fact>, id: nat): seq<Prompt> {
    if log == [] then [] else Asks(log[..|log| - 1], id) + AskedBy(log[|log| - 1], id)
  }

  /** The prompts that left the thread's queue, in order. */
  function Leaves(log: seq<Fact>, id: nat): seq<Prompt> {
    if log == [] then [] else Leaves(log[..|log| - 1], id) + LeftBy(log[|log| - 1], id)
  }

  /** The prompts still waiting; a closed thread has none. */
  function Waits(ts: seq<Thread>, id: nat): seq<Prompt> {
    match First(ts, ById(id)) { case Some(i) => ts[i].queued case None => [] }
  }

  ghost predicate Conserved(c: Core) {
    forall id: nat :: Asks(c.log, id) == Leaves(c.log, id) + Waits(c.threads, id)
  }

  // ----- Histories in parts -----

  lemma {:induction false} AsksAppend(a: seq<Fact>, b: seq<Fact>, id: nat)
    ensures Asks(a + b, id) == Asks(a, id) + Asks(b, id)
  {
    if b == [] {
      assert a + b == a;
    } else {
      var n := |b| - 1;
      assert (a + b)[..|a + b| - 1] == a + b[..n];
      AsksAppend(a, b[..n], id);
      Text.Assoc(Asks(a, id), Asks(b[..n], id), AskedBy(b[n], id));
    }
  }

  lemma {:induction false} LeavesAppend(a: seq<Fact>, b: seq<Fact>, id: nat)
    ensures Leaves(a + b, id) == Leaves(a, id) + Leaves(b, id)
  {
    if b == [] {
      assert a + b == a;
    } else {
      var n := |b| - 1;
      assert (a + b)[..|a + b| - 1] == a + b[..n];
      LeavesAppend(a, b[..n], id);
      Text.Assoc(Leaves(a, id), Leaves(b[..n], id), LeftBy(b[n], id));
    }
  }

  lemma {:induction false} QuietPrompts(fs: seq<Fact>, id: nat)
    requires forall i :: 0 <= i < |fs| ==> AskedBy(fs[i], id) == [] && LeftBy(fs[i], id) == []
    ensures Asks(fs, id) == [] && Leaves(fs, id) == []
  {
    if fs != [] {
      QuietPrompts(fs[..|fs| - 1], id);
    }
  }

  lemma SettlePrompts(fs: seq<Fact>, id: nat)
    requires AllSettle(fs)
    ensures Asks(fs, id) == [] && Leaves(fs, id) == []
  {
    hide Asks, Leaves;
    QuietPrompts(fs, id);
  }

  lemma OnePrompt(f: Fact, id: nat)
    ensures Asks([f], id) == AskedBy(f, id) && Leaves([f], id) == LeftBy(f, id)
  {
    assert [f][..0] == [];
  }

  lemma {:induction false} WithdrawLeaves(thread: nat, ps: seq<Prompt>, id: nat)
    ensures Asks(WithdrawAll(thread, ps), id) == []
    ensures Leaves(WithdrawAll(thread, ps), id) == if thread == id then ps else []
  {
    if ps != [] {
      var first, rest := [Withdrawn(thread, ps[0])], WithdrawAll(thread, ps[1..]);
      WithdrawLeaves(thread, ps[1..], id);
      OnePrompt(first[0], id);
      AsksAppend(first, rest, id);
      LeavesAppend(first, rest, id);
    }
  }

  // ----- One thread -----

  /** What the thread waits for and is asked is what leaves it and what waits then; nobody else's
      prompts move. */
  ghost predicate Balanced(t: Thread, u: Thread, fs: seq<Fact>, id: nat) {
    if id == t.id then t.queued + Asks(fs, id) == Leaves(fs, id) + u.queued
    else Asks(fs, id) == [] && Leaves(fs, id) == []
  }

  lemma AnswerQuiet(c: Core, t: Thread, item: Pending, answer: Answer, id: nat)
    ensures Asks(AnswerFacts(c, t, item, answer), id) == [] && Leaves(AnswerFacts(c, t, item, answer), id) == []
  {
    hide ChoiceOf, Grants, Asks, Leaves;
    QuietPrompts(AnswerFacts(c, t, item, answer), id);
  }

  lemma TakeQueued(c: Core, m: Move)
    requires Allowed(c, m) && m.TakeAnswer?
    ensures After(c, m).queued == c.threads[m.i].queued && After(c, m).id == c.threads[m.i].id
  {
    hide Grants;
  }

  lemma TakeBalanced(c: Core, m: Move, id: nat)
    requires Allowed(c, m) && m.TakeAnswer?
    ensures Balanced(c.threads[m.i], After(c, m), Facts(c, m), id)
  {
    hide ChoiceOf, Grants, Asks, Leaves, AnswerFacts, After;
    var t := c.threads[m.i];
    var item := t.pending[m.j];
    TakeQueued(c, m);
    var chosen, more := [Chosen(t.id, item, m.answer, c.allowWrites && t.writes)], AnswerFacts(c, t, item, m.answer);
    AnswerQuiet(c, t, item, m.answer, id);
    OnePrompt(chosen[0], id);
    AsksAppend(chosen, more, id);
    LeavesAppend(chosen, more, id);
  }

  lemma WithdrawBalanced(c: Core, m: Move, id: nat)
    requires Allowed(c, m) && m.Withdraw?
    ensures Balanced(c.threads[m.i], After(c, m), Facts(c, m), id)
  {
    hide Asks, Leaves, WithdrawAll, CancelAll;
    var t := c.threads[m.i];
    var a, b := WithdrawAll(t.id, t.queued), WithdrawnCards(c, m.i);
    WithdrawLeaves(t.id, t.queued, id);
    CancelSettles(t.pending);
    SettlePrompts(b, id);
    AsksAppend(a, b, id);
    LeavesAppend(a, b, id);
  }

  /** The first prompt of the queue leaves. */
  lemma FirstLeaves(t: Thread, u: Thread, f: Fact, rest: seq<Fact>, id: nat)
    requires t.queued != [] && u.queued == t.queued[1..] && AllSettle(rest)
    requires AskedBy(f, id) == [] && LeftBy(f, id) == if id == t.id then [t.queued[0]] else []
    ensures Balanced(t, u, [f] + rest, id)
  {
    hide Asks, Leaves, AskedBy, LeftBy;
    SettlePrompts(rest, id);
    OnePrompt(f, id);
    AsksAppend([f], rest, id);
    LeavesAppend([f], rest, id);
    assert t.queued == [t.queued[0]] + t.queued[1..];
  }

  lemma HandBalanced(c: Core, m: Move, id: nat)
    requires Allowed(c, m) && (m.Hand? || m.HandFails? || m.Lose?)
    ensures Balanced(c.threads[m.i], After(c, m), Facts(c, m), id)
  {
    hide Balanced, CancelAll, Transcripts.Settled, TurnNotice;
    var t := c.threads[m.i];
    var fs := Facts(c, m);
    var rest := if m.HandFails? then CancelAll(t.pending) else [];
    assert fs == [fs[0]] + rest;
    if m.HandFails? { CancelSettles(t.pending); }
    FirstLeaves(t, After(c, m), fs[0], rest, id);
  }

  lemma LocalBalanced(c: Core, m: Move, id: nat)
    requires Allowed(c, m) && Local(m)
    ensures Balanced(c.threads[m.i], After(c, m), Facts(c, m), id)
  {
    hide Asks, Leaves, After, Facts, Balanced;
    if m.TakeAnswer? {
      TakeBalanced(c, m, id);
    } else if m.Withdraw? {
      WithdrawBalanced(c, m, id);
    } else if m.Hand? || m.HandFails? || m.Lose? {
      HandBalanced(c, m, id);
    } else {
      OtherBalanced(c, m, id);
    }
  }

  lemma OtherBalanced(c: Core, m: Move, id: nat)
    requires Allowed(c, m) && Local(m) && !m.TakeAnswer? && !m.Withdraw? && !m.Hand? && !m.HandFails? && !m.Lose?
    ensures Balanced(c.threads[m.i], After(c, m), Facts(c, m), id)
  {
    hide Asks, Leaves, CancelAll, SiftFacts, Kept, Transcripts.Settled, TurnNotice, LaunchOf, Warned, CoveredBy;
    var fs := Facts(c, m);
    if m.Enqueue? || (m.RunGranted? && |fs| == 1) {
      OnePrompt(fs[0], id);
      assert fs == [fs[0]];
    } else {
      QuietFacts(c, m);
      SettlePrompts(fs, id);
      assert After(c, m).queued == c.threads[m.i].queued;
    }
  }

  // ----- All threads -----

  lemma WaitsAt(c: Core, i: nat)
    requires Ids(c) && i < |c.threads|
    ensures Waits(c.threads, c.threads[i].id) == c.threads[i].queued
  {
    OwnId(c, i);
  }

  lemma WaitsNone(ts: seq<Thread>, id: nat)
    requires forall i :: 0 <= i < |ts| ==> ts[i].id != id
    ensures Waits(ts, id) == []
  {
    FirstIsFirst(ts, ById(id));
  }

  /** The same queues under the same ids, in whatever places. */
  lemma SameWaits(c: Core, d: Core, id: nat)
    requires Ids(c) && Ids(d)
    requires forall i :: 0 <= i < |c.threads| && c.threads[i].id == id ==>
               c.threads[i].queued == [] || exists k :: 0 <= k < |d.threads| && d.threads[k].id == id
    requires forall k :: 0 <= k < |d.threads| && d.threads[k].id == id ==>
               exists i :: 0 <= i < |c.threads| && c.threads[i].id == id && c.threads[i].queued == d.threads[k].queued
    ensures Waits(d.threads, id) == Waits(c.threads, id)
  {
    hide Waits;
    if k :| 0 <= k < |d.threads| && d.threads[k].id == id {
      var i :| 0 <= i < |c.threads| && c.threads[i].id == id && c.threads[i].queued == d.threads[k].queued;
      WaitsAt(c, i);
      WaitsAt(d, k);
    } else {
      WaitsNone(d.threads, id);
      if i :| 0 <= i < |c.threads| && c.threads[i].id == id {
        WaitsAt(c, i);
      } else {
        WaitsNone(c.threads, id);
      }
    }
  }

  lemma LocalWaits(c: Core, d: Core, i: nat, u: Thread, id: nat)
    requires Ids(c) && Ids(d) && i < |c.threads| && u.id == c.threads[i].id && d.threads == c.threads[i := u]
    ensures Waits(c.threads, id) == if id == u.id then c.threads[i].queued else Waits(d.threads, id)
    ensures id == u.id ==> Waits(d.threads, id) == u.queued
  {
    hide Waits;
    if id == u.id {
      WaitsAt(c, i);
      WaitsAt(d, i);
    } else {
      forall k | 0 <= k < |d.threads| && d.threads[k].id == id
        ensures exists j :: 0 <= j < |c.threads| && c.threads[j].id == id && c.threads[j].queued == d.threads[k].queued
      {
        assert c.threads[k] == d.threads[k];
      }
      forall j | 0 <= j < |c.threads| && c.threads[j].id == id ensures exists k :: 0 <= k < |d.threads| && d.threads[k].id == id {
        assert d.threads[j].id == id;
      }
      SameWaits(c, d, id);
    }
  }

  lemma Regroup(asks: seq<Prompt>, leaves: seq<Prompt>, queue: seq<Prompt>, a: seq<Prompt>, l: seq<Prompt>, rest: seq<Prompt>)
    requires asks == leaves + queue && queue + a == l + rest
    ensures asks + a == (leaves + l) + rest
  {
    Text.Assoc(leaves, queue, a);
    Text.Assoc(leaves, l, rest);
  }

  lemma LocalConserves(c: Core, m: Move, id: nat)
    requires Ids(c) && Conserved(c) && Allowed(c, m) && Local(m)
    ensures var d := Do(c, m); Asks(d.log, id) == Leaves(d.log, id) + Waits(d.threads, id)
  {
    hide Do, After, Facts, Asks, Leaves, Waits, Ids;
    var d, t, u := Do(c, m), c.threads[m.i], After(c, m);
    LocalDoes(c, m);
    SameThread(c, m);
    IdsKept(c, m);
    LocalWaits(c, d, m.i, u, id);
    LocalBalanced(c, m, id);
    AsksAppend(c.log, Facts(c, m), id);
    LeavesAppend(c.log, Facts(c, m), id);
    if id == t.id {
      Regroup(Asks(c.log, id), Leaves(c.log, id), t.queued, Asks(Facts(c, m), id), Leaves(Facts(c, m), id), u.queued);
    } else {
      NothingAdded(Asks(c.log, id), Leaves(c.log, id));
    }
  }

  lemma NothingAdded(a: seq<Prompt>, b: seq<Prompt>)
    ensures a + [] == a && b + [] == b
  {
  }

  lemma SweepConserves(c: Core, m: Move, id: nat)
    requires Ids(c) && Conserved(c) && Allowed(c, m) && SweepOf(m).Some?
    ensures var d := Do(c, m); Asks(d.log, id) == Leaves(d.log, id) + Waits(d.threads, id)
  {
    hide Do, Swept, SweepThreads, SweepFacts, Asks, Leaves, Waits;
    var d, s := Do(c, m), SweepOf(m).value;
    SweepDoes(c, m);
    SweepAt(c.threads, s);
    SweepSettles(c.threads, s);
    SettlePrompts(Facts(c, m), id);
    AsksAppend(c.log, Facts(c, m), id);
    LeavesAppend(c.log, Facts(c, m), id);
    NothingAdded(Asks(c.log, id), Leaves(c.log, id));
    IdsKept(c, m);
    forall i | 0 <= i < |c.threads| ensures d.threads[i].id == c.threads[i].id && d.threads[i].queued == c.threads[i].queued {
      SameSwept(c.threads[i], s);
      SweptQueue(c.threads[i], s);
    }
    SameWaits(c, d, id);
  }

  lemma SweptQueue(t: Thread, s: Sweep)
    ensures Swept(t, s).queued == t.queued
  {
  }

  lemma AddConserves(c: Core, m: Move, id: nat)
    requires Ids(c) && Conserved(c) && Allowed(c, m) && m.Add?
    ensures var d := Do(c, m); Asks(d.log, id) == Leaves(d.log, id) + Waits(d.threads, id)
  {
    hide Do, Asks, Leaves, Waits;
    var d, t, fs := Do(c, m), m.thread, Facts(c, m);
    RestDoes(c, m);
    IdsKept(c, m);
    AsksAppend(c.log, fs, id);
    LeavesAppend(c.log, fs, id);
    NothingAdded(Asks(c.log, id), Leaves(c.log, id));
    if m.first.Some? { OnePrompt(fs[0], id); assert fs == [fs[0]]; } else { SettlePrompts(fs, id); }
    if id == t.id {
      WaitsAt(d, |c.threads|);
      WaitsNone(c.threads, id);
      assert t.queued == Asks(fs, id);
      assert Leaves(c.log, id) + [] == Leaves(c.log, id);
    } else {
      forall k | 0 <= k < |d.threads| && d.threads[k].id == id
        ensures exists j :: 0 <= j < |c.threads| && c.threads[j].id == id && c.threads[j].queued == d.threads[k].queued
      {
        assert c.threads[k] == d.threads[k];
      }
      forall j | 0 <= j < |c.threads| && c.threads[j].id == id ensures exists k :: 0 <= k < |d.threads| && d.threads[k].id == id {
        assert d.threads[j].id == id;
      }
      SameWaits(c, d, id);
    }
  }

  lemma OtherConserves(c: Core, m: Move, id: nat)
    requires Ids(c) && Conserved(c) && Allowed(c, m) && !Local(m) && SweepOf(m).None? && !m.Add?
    ensures var d := Do(c, m); Asks(d.log, id) == Leaves(d.log, id) + Waits(d.threads, id)
  {
    hide Do, Asks, Leaves, Waits, Facts;
    RestDoes(c, m);
    QuietFacts(c, m);
    SettlePrompts(Facts(c, m), id);
    AsksAppend(c.log, Facts(c, m), id);
    LeavesAppend(c.log, Facts(c, m), id);
    NothingAdded(Asks(c.log, id), Leaves(c.log, id));
    if m.Remove? {
      RemoveWaits(c, m, id);
    }
  }

  lemma RemoveWaits(c: Core, m: Move, id: nat)
    requires Ids(c) && Allowed(c, m) && m.Remove?
    ensures Waits(Do(c, m).threads, id) == Waits(c.threads, id)
  {
    hide Do, Waits, Facts;
    var d := Do(c, m);
    RestDoes(c, m);
    IdsKept(c, m);
    forall k | 0 <= k < |d.threads| && d.threads[k].id == id
      ensures exists j :: 0 <= j < |c.threads| && c.threads[j].id == id && c.threads[j].queued == d.threads[k].queued
    {
      assert d.threads[k] == c.threads[if k >= m.i then k + 1 else k];
    }
    forall j | 0 <= j < |c.threads| && c.threads[j].id == id
      ensures c.threads[j].queued == [] || exists k :: 0 <= k < |d.threads| && d.threads[k].id == id
    {
      if j != m.i {
        assert d.threads[if j > m.i then j - 1 else j].id == id;
      }
    }
    SameWaits(c, d, id);
  }

  lemma PromptsKept(c: Core, m: Move)
    requires Ids(c) && Conserved(c) && Allowed(c, m)
    ensures Conserved(Do(c, m))
  {
    hide Do, Asks, Leaves, Waits, Ids;
    var d := Do(c, m);
    forall id: nat ensures Asks(d.log, id) == Leaves(d.log, id) + Waits(d.threads, id) {
      if Local(m) {
        LocalConserves(c, m, id);
      } else if SweepOf(m).Some? {
        SweepConserves(c, m, id);
      } else if m.Add? {
        AddConserves(c, m, id);
      } else {
        OtherConserves(c, m, id);
      }
    }
  }

  // ----- Over any run -----

  lemma RunConserved(configured: set<string>, allowWrites: bool, events: seq<Event>)
    ensures Conserved(Run(Fresh(configured, allowWrites), events))
  {
    hide Run, Do, Step;
    var start := Fresh(configured, allowWrites);
    AnyRun(start, events);
    forall c, m | Ids(c) && Conserved(c) && Good(c, m, NoCare) ensures Conserved(Do(c, m)) {
      PromptsKept(c, m);
    }
    RunKeeps(Conserved, start, events, NoCare);
  }

  /** The prompts handed to a connection or withdrawn, in order: what `Leaves` counts, without losses. */
  function SentOrWithdrawn(log: seq<Fact>, id: nat): seq<Prompt> {
    if log == [] then []
    else SentOrWithdrawn(log[..|log| - 1], id)
         + if log[|log| - 1].Handed? || log[|log| - 1].Withdrawn? then LeftBy(log[|log| - 1], id) else []
  }

  lemma {:induction false} NoLosses(log: seq<Fact>, id: nat)
    requires AgentLinks.NoneLost(log)
    ensures SentOrWithdrawn(log, id) == Leaves(log, id)
  {
    if log != [] {
      NoLosses(log[..|log| - 1], id);
    }
  }

  /** After any run, for every thread there is or ever was: the prompts given to it are, in order,
      those handed to a connection or withdrawn by the user, followed by those still waiting. */
  lemma PromptsAreConserved(configured: set<string>, allowWrites: bool, events: seq<Event>, id: nat)
    ensures var c := Run(Fresh(configured, allowWrites), events);
            Asks(c.log, id) == SentOrWithdrawn(c.log, id) + Waits(c.threads, id)
  {
    hide Run, Asks, Leaves, Waits, SentOrWithdrawn, AgentLinks.NoneLost;
    var c := Run(Fresh(configured, allowWrites), events);
    RunConserved(configured, allowWrites, events);
    AgentLinks.RunLinked(configured, allowWrites, events);
    NoLosses(c.log, id);
  }
}
