/** Cards have ids of their own, and each can let at most one command run. */
module AgentCards {
  import opened Wrappers
  import opened AgentTypes
  import opened AgentSteps
  import opened AgentMoves
  import opened AgentRuns
  import opened AgentEffects
  import opened AgentSafety
  import opened Sums
  import Transcripts

  function IdOf(p: Pending): multiset<nat> { multiset{p.id} }

  /** The cards that can still let something run: those that wait, and the one a grant came from. */
  function LiveCards(t: Thread): multiset<nat> {
    Sum(t.pending, IdOf) + match t.grant { case Some(g) => multiset{g.card} case None => multiset{} }
  }

  /** The card a command ran on. */
  function UsedBy(f: Fact): multiset<nat> {
    match f
    case Ran(_, _, card, _, _, _, _) => multiset{card}
    case _ => multiset{}
  }

  /** Cards that may let something run, and cards that did. */
  function Cards(c: Core): multiset<nat> { Sum(c.threads, LiveCards) + Sum(c.log, UsedBy) }

  ghost predicate Ascending(ps: seq<Pending>, bound: nat) {
    && (forall i :: 0 <= i < |ps| ==> ps[i].id <= bound)
    && (forall i, j :: 0 <= i < j < |ps| ==> ps[i].id < ps[j].id)
  }

  /** Every card is in one place, once; ids ascend on each thread and stay below the counter. */
  ghost predicate Counted(c: Core) {
    && (forall n :: Cards(c)[n] <= 1)
    && (forall n :: n in Cards(c) ==> n <= c.nextPending)
    && (forall i :: 0 <= i < |c.threads| ==> Ascending(c.threads[i].pending, c.nextPending))
  }

  // ----- Cards that leave a list -----

  lemma {:induction false} KeptSum(ps: seq<Pending>, sieve: Sieve)
    ensures Sum(Kept(ps, sieve), IdOf) <= Sum(ps, IdOf)
  {
    hide Stays;
    if ps != [] {
      var rest, last := ps[..|ps| - 1], ps[|ps| - 1];
      KeptSum(rest, sieve);
      if Stays(last, sieve) {
        SumAppend(Kept(rest, sieve), [last], IdOf);
        SumOne(last, IdOf);
      } else {
        assert Kept(rest, sieve) + [] == Kept(rest, sieve);
      }
    }
  }

  lemma {:induction false} KeptAscend(ps: seq<Pending>, sieve: Sieve, bound: nat)
    requires Ascending(ps, bound)
    ensures Ascending(Kept(ps, sieve), bound)
    ensures forall k :: 0 <= k < |Kept(ps, sieve)| ==> Kept(ps, sieve)[k].id <= (if ps == [] then 0 else ps[|ps| - 1].id)
  {
    hide Stays, Kept, Ascending;
    NoneKept(sieve);
    if ps != [] {
      var rest, last := ps[..|ps| - 1], ps[|ps| - 1];
      FrontAscends(ps, bound);
      KeptAscend(rest, sieve, bound);
      KeptStep(ps, sieve);
      if Stays(last, sieve) {
        MoreAscend(Kept(rest, sieve), last, bound);
      }
    }
  }

  lemma NoneKept(sieve: Sieve)
    ensures Kept([], sieve) == []
  {
  }

  lemma KeptStep(ps: seq<Pending>, sieve: Sieve)
    requires ps != []
    ensures var rest := Kept(ps[..|ps| - 1], sieve);
            Kept(ps, sieve) == if Stays(ps[|ps| - 1], sieve) then rest + [ps[|ps| - 1]] else rest
  {
    hide Stays;
  }

  lemma FrontAscends(ps: seq<Pending>, bound: nat)
    requires Ascending(ps, bound) && ps != []
    ensures var rest, last := ps[..|ps| - 1], ps[|ps| - 1];
            Ascending(rest, bound) && last.id <= bound && (rest != [] ==> rest[|rest| - 1].id < last.id)
  {
  }

  lemma MoreAscend(ps: seq<Pending>, p: Pending, bound: nat)
    requires Ascending(ps, bound) && p.id <= bound && forall k :: 0 <= k < |ps| ==> ps[k].id < p.id
    ensures Ascending(ps + [p], bound)
  {
  }

  lemma RemovedSum(ps: seq<Pending>, j: nat)
    requires j < |ps|
    ensures Sum(Removed(ps, j), IdOf) + multiset{ps[j].id} == Sum(ps, IdOf)
  {
    SumRemove(ps, j, IdOf);
  }

  lemma MoreRoom(ps: seq<Pending>, bound: nat, more: nat)
    requires Ascending(ps, bound) && bound <= more
    ensures Ascending(ps, more)
  {
  }

  // ----- One thread -----

  /** The card a move brings. */
  function Brought(c: Core, m: Move): multiset<nat> {
    if m.PushCard? then multiset{c.nextPending + 1} else multiset{}
  }

  function Room(c: Core, m: Move): nat { if m.PushCard? then c.nextPending + 1 else c.nextPending }

  lemma {:induction false} QuietUse(fs: seq<Fact>)
    requires AllSettle(fs)
    ensures Sum(fs, UsedBy) == multiset{}
  {
    if fs != [] {
      QuietUse(fs[..|fs| - 1]);
    }
  }

  lemma {:induction false} WithdrawUse(id: nat, ps: seq<Prompt>)
    ensures Sum(WithdrawAll(id, ps), UsedBy) == multiset{}
  {
    if ps != [] {
      WithdrawUse(id, ps[1..]);
      SumAppend([Withdrawn(id, ps[0])], WithdrawAll(id, ps[1..]), UsedBy);
      SumOne(Withdrawn(id, ps[0]), UsedBy);
    }
  }

  lemma OneUse(f: Fact)
    ensures Sum([f], UsedBy) == UsedBy(f)
  {
    SumOne(f, UsedBy);
  }

  /** Answering a card spends it: at most its own id goes into the history or into a grant. */
  lemma AnswerUse(c: Core, t: Thread, item: Pending, answer: Answer)
    ensures Sum(AnswerFacts(c, t, item, answer), UsedBy)
            + (if Grants(item, answer) then multiset{item.id} else multiset{}) <= multiset{item.id}
  {
    hide ChoiceOf, ItemFacts, Sum;
    if item.kind.Change? || item.responder.None? {
      QuietAnswer(c, t, item, answer);
    } else {
      var token := item.responder.value;
      SumAppend(ForgetFacts(item), ItemFacts(c, t, item, token, answer), UsedBy);
      ForgetUse(item);
      ItemUse(c, t, item, token, answer);
    }
  }

  lemma QuietAnswer(c: Core, t: Thread, item: Pending, answer: Answer)
    requires item.kind.Change? || item.responder.None?
    ensures Sum(AnswerFacts(c, t, item, answer), UsedBy) == multiset{}
  {
    var fs := AnswerFacts(c, t, item, answer);
    assert |fs| <= 2 && forall i :: 0 <= i < |fs| ==> UsedBy(fs[i]) == multiset{};
    NoUse(fs);
  }

  lemma {:induction false} NoUse(fs: seq<Fact>)
    requires forall i :: 0 <= i < |fs| ==> UsedBy(fs[i]) == multiset{}
    ensures Sum(fs, UsedBy) == multiset{}
  {
    if fs != [] {
      NoUse(fs[..|fs| - 1]);
    }
  }

  lemma ForgetUse(item: Pending)
    ensures Sum(ForgetFacts(item), UsedBy) == multiset{}
  {
    NoUse(ForgetFacts(item));
  }

  lemma ItemUse(c: Core, t: Thread, item: Pending, token: Token, answer: Answer)
    requires item.responder == Some(token)
    ensures Sum(ItemFacts(c, t, item, token, answer), UsedBy)
            + (if Grants(item, answer) then multiset{item.id} else multiset{}) <= multiset{item.id}
  {
    hide ChoiceOf, Sum, ItemFacts;
    if item.kind.Command? {
      CommandUse(c, t, item, token, answer);
    } else {
      NoCommandUse(c, t, item, token, answer);
    }
  }

  lemma CommandUse(c: Core, t: Thread, item: Pending, token: Token, answer: Answer)
    requires item.responder == Some(token) && item.kind.Command?
    ensures Sum(ItemFacts(c, t, item, token, answer), UsedBy) <= multiset{item.id}
  {
    hide Sum;
    var fs := ItemFacts(c, t, item, token, answer);
    assert |fs| == 1 && fs == [fs[0]];
    OneUse(fs[0]);
  }

  lemma NoCommandUse(c: Core, t: Thread, item: Pending, token: Token, answer: Answer)
    requires !item.kind.Command?
    ensures Sum(ItemFacts(c, t, item, token, answer), UsedBy) == multiset{}
  {
    hide ChoiceOf, Sum, Grants;
    var fs := ItemFacts(c, t, item, token, answer);
    assert |fs| <= 2;
    assert forall i :: 0 <= i < |fs| ==> !fs[i].Ran?;
    NoUse(fs);
  }

  lemma TakeUse(c: Core, m: Move)
    requires Allowed(c, m) && m.TakeAnswer?
    ensures LiveCards(After(c, m)) + Sum(Facts(c, m), UsedBy) <= LiveCards(c.threads[m.i])
  {
    hide ChoiceOf, AnswerFacts, Grants, Sum;
    var t := c.threads[m.i];
    var item := t.pending[m.j];
    var chosen := Chosen(t.id, item, m.answer, c.allowWrites && t.writes);
    SumAppend([chosen], AnswerFacts(c, t, item, m.answer), UsedBy);
    OneUse(chosen);
    AnswerUse(c, t, item, m.answer);
    RemovedSum(t.pending, m.j);
  }

  lemma LocalUse(c: Core, m: Move)
    requires Allowed(c, m) && Local(m)
    ensures LiveCards(After(c, m)) + Sum(Facts(c, m), UsedBy) <= LiveCards(c.threads[m.i]) + Brought(c, m)
  {
    hide After, Facts, Sum, LiveCards;
    if m.TakeAnswer? {
      TakeUse(c, m);
    } else if m.RunGranted? {
      GrantUse(c, m);
    } else {
      OtherUse(c, m);
      OtherLive(c, m);
    }
  }

  lemma GrantUse(c: Core, m: Move)
    requires Allowed(c, m) && m.RunGranted?
    ensures LiveCards(After(c, m)) + Sum(Facts(c, m), UsedBy) <= LiveCards(c.threads[m.i])
  {
    hide Sum, CoveredBy, Warned, LaunchOf;
    assert c.threads[m.i].grant.Some? by { Granting(c.threads[m.i], m.request, c.now); }
    OneUse(Facts(c, m)[0]);
  }

  lemma OtherUse(c: Core, m: Move)
    requires Allowed(c, m) && Local(m) && !m.TakeAnswer? && !m.RunGranted?
    ensures Sum(Facts(c, m), UsedBy) == multiset{}
  {
    hide Sum, CancelAll, SiftFacts, WithdrawAll;
    if !Telling(m) {
      QuietFacts(c, m);
      QuietUse(Facts(c, m));
    } else if m.Withdraw? {
      var t := c.threads[m.i];
      CancelSettles(t.pending);
      QuietUse(WithdrawnCards(c, m.i));
      WithdrawUse(t.id, t.queued);
      SumAppend(WithdrawAll(t.id, t.queued), WithdrawnCards(c, m.i), UsedBy);
    } else {
      if m.HandFails? {
        CancelSettles(c.threads[m.i].pending);
      }
      NoUse(Facts(c, m));
    }
  }

  lemma OtherLive(c: Core, m: Move)
    requires Allowed(c, m) && Local(m) && !m.TakeAnswer? && !m.RunGranted?
    ensures LiveCards(After(c, m)) <= LiveCards(c.threads[m.i]) + Brought(c, m)
  {
    hide Sum, Kept, Transcripts.Settled, TurnNotice;
    var t, u := c.threads[m.i], After(c, m);
    var ps := t.pending;
    assert u.grant == t.grant;
    if m.PushCard? {
      var card := NewCard(c, m.kind, m.responder, m.launch, m.approval);
      SumAppend(ps, [card], IdOf);
      SumOne(card, IdOf);
    } else if m.Writes? {
      KeptSum(ps, NoChanges);
      assert u.pending == ps || u.pending == Kept(ps, NoChanges);
    } else {
      assert u.pending == ps || u.pending == [];
      EmptySum();
    }
  }

  lemma EmptySum()
    ensures Sum([], IdOf) == multiset{}
  {
  }

  lemma LocalAscends(c: Core, m: Move)
    requires Allowed(c, m) && Local(m) && Ascending(c.threads[m.i].pending, c.nextPending)
    ensures Ascending(After(c, m).pending, Room(c, m))
  {
    hide Kept, Transcripts.Settled, TurnNotice;
    var ps := c.threads[m.i].pending;
    if m.Writes? {
      KeptAscend(ps, NoChanges, c.nextPending);
    }
  }

  // ----- All threads -----

  lemma SweptLive(t: Thread, s: Sweep)
    ensures LiveCards(Swept(t, s)) <= LiveCards(t)
  {
    hide Sum, Kept, Transcripts.Settled;
    EmptySum();
    match s
    case RevokeWrites => KeptSum(t.pending, NoChanges);
    case PruneChanges(closed) => KeptSum(t.pending, LiveChanges(closed));
    case UrlDone(_, e) => KeptSum(t.pending, NotUrl(e));
    case _ =>
  }

  lemma SweptAscend(t: Thread, s: Sweep, bound: nat)
    requires Ascending(t.pending, bound)
    ensures Ascending(Swept(t, s).pending, bound)
  {
    hide Kept, Transcripts.Settled;
    match s
    case RevokeWrites => KeptAscend(t.pending, NoChanges, bound);
    case PruneChanges(closed) => KeptAscend(t.pending, LiveChanges(closed), bound);
    case UrlDone(_, e) => KeptAscend(t.pending, NotUrl(e), bound);
    case _ =>
  }

  lemma {:induction false} SweepLive(ts: seq<Thread>, s: Sweep)
    ensures Sum(SweepThreads(ts, s), LiveCards) <= Sum(ts, LiveCards)
  {
    hide LiveCards, Swept;
    if ts != [] {
      SweepLive(ts[..|ts| - 1], s);
      SweptLive(ts[|ts| - 1], s);
      SumAppend(SweepThreads(ts[..|ts| - 1], s), [Swept(ts[|ts| - 1], s)], LiveCards);
      SumOne(Swept(ts[|ts| - 1], s), LiveCards);
    }
  }

  lemma Regroup(a: multiset<nat>, b: multiset<nat>, x: multiset<nat>, u: multiset<nat>, l: multiset<nat>, f: multiset<nat>)
    requires a + x == b + u
    ensures (a + (l + f)) + x == (b + l) + (u + f)
  {
    forall e ensures ((a + (l + f)) + x)[e] == ((b + l) + (u + f))[e] {
      assert (a + x)[e] == (b + u)[e];
    }
  }

  lemma LocalShrink(c: Core, m: Move)
    requires Allowed(c, m) && Local(m)
    ensures Cards(Do(c, m)) <= Cards(c) + Brought(c, m)
  {
    hide Do, After, Facts, Sum, LiveCards, Brought;
    var d := Do(c, m);
    LocalDoes(c, m);
    SumAppend(c.log, Facts(c, m), UsedBy);
    SumPut(c.threads, m.i, After(c, m), LiveCards);
    LocalUse(c, m);
    var a, b, x, u, f := Sum(d.threads, LiveCards), Sum(c.threads, LiveCards), LiveCards(c.threads[m.i]), LiveCards(After(c, m)), Sum(Facts(c, m), UsedBy);
    var l := Sum(c.log, UsedBy);
    Regroup(a, b, x, u, l, f);
    SwapPart(a + (l + f), b + l, x, u + f, Brought(c, m));
  }

  /** A move brings at most one card, with a new id, and otherwise only spends cards. */
  lemma CardsShrink(c: Core, m: Move)
    requires Allowed(c, m)
    ensures Cards(Do(c, m)) <= Cards(c) + Brought(c, m)
  {
    hide Do, After, Facts, Sum, LiveCards, SweepThreads;
    var d := Do(c, m);
    SumAppend(c.log, Facts(c, m), UsedBy);
    if Local(m) {
      LocalShrink(c, m);
    } else {
      QuietFacts0(c, m);
      if SweepOf(m).Some? {
        SweepDoes(c, m);
        SweepLive(c.threads, SweepOf(m).value);
      } else {
        RestDoes(c, m);
        OtherThreads(c, m);
      }
    }
  }

  lemma QuietFacts0(c: Core, m: Move)
    requires Allowed(c, m) && !Local(m)
    ensures Sum(Facts(c, m), UsedBy) == multiset{}
  {
    hide SweepFacts;
    if m.Add? {
      NoUse(Facts(c, m));
    } else {
      QuietFacts(c, m);
      QuietUse(Facts(c, m));
    }
  }

  lemma OtherThreads(c: Core, m: Move)
    requires Allowed(c, m) && !Local(m) && SweepOf(m).None?
    ensures Sum(Do(c, m).threads, LiveCards) <= Sum(c.threads, LiveCards)
  {
    hide Do, Facts, Sum;
    RestDoes(c, m);
    if m.Add? {
      SumAppend(c.threads, [m.thread], LiveCards);
      SumOne(m.thread, LiveCards);
      EmptySum();
    } else if m.Remove? {
      SumRemove(c.threads, m.i, LiveCards);
    }
  }

  lemma AscendsKept(c: Core, m: Move)
    requires Counted(c) && Allowed(c, m)
    ensures forall i :: 0 <= i < |Do(c, m).threads| ==> Ascending(Do(c, m).threads[i].pending, Do(c, m).nextPending)
  {
    hide Do, Counted;
    if Local(m) {
      AllAscend(c, m);
    } else if SweepOf(m).Some? {
      AllSweptAscend(c, m);
    } else {
      OtherAscends(c, m);
    }
  }

  lemma AllAscend(c: Core, m: Move)
    requires Counted(c) && Allowed(c, m) && Local(m)
    ensures forall i :: 0 <= i < |Do(c, m).threads| ==> Ascending(Do(c, m).threads[i].pending, Do(c, m).nextPending)
  {
    hide Do, After, Facts, Cards, Ascending;
    var d := Do(c, m);
    LocalDoes(c, m);
    LocalAscends(c, m);
    forall i | 0 <= i < |d.threads| ensures Ascending(d.threads[i].pending, d.nextPending) {
      if i != m.i { MoreRoom(c.threads[i].pending, c.nextPending, d.nextPending); }
    }
  }

  lemma AllSweptAscend(c: Core, m: Move)
    requires Counted(c) && Allowed(c, m) && SweepOf(m).Some?
    ensures forall i :: 0 <= i < |Do(c, m).threads| ==> Ascending(Do(c, m).threads[i].pending, Do(c, m).nextPending)
  {
    hide Do, Facts, Swept, SweepThreads, Cards, Ascending;
    var d := Do(c, m);
    SweepDoes(c, m);
    SweepAt(c.threads, SweepOf(m).value);
    forall i | 0 <= i < |d.threads| ensures Ascending(d.threads[i].pending, d.nextPending) {
      SweptAscend(c.threads[i], SweepOf(m).value, c.nextPending);
    }
  }

  lemma OtherAscends(c: Core, m: Move)
    requires Counted(c) && Allowed(c, m) && !Local(m) && SweepOf(m).None?
    ensures forall i :: 0 <= i < |Do(c, m).threads| ==> Ascending(Do(c, m).threads[i].pending, Do(c, m).nextPending)
  {
    hide Do, Facts, Cards, Ascending;
    var d := Do(c, m);
    RestDoes(c, m);
    forall i | 0 <= i < |d.threads| ensures Ascending(d.threads[i].pending, d.nextPending) {
      if m.Add? && i == |c.threads| {
        NoCards(m.thread, d.nextPending);
      } else {
        var k := if m.Remove? && i >= m.i then i + 1 else i;
        assert d.threads[i] == c.threads[k];
        MoreRoom(c.threads[k].pending, c.nextPending, d.nextPending);
      }
    }
  }

  lemma NoCards(t: Thread, bound: nat)
    requires t.pending == []
    ensures Ascending(t.pending, bound)
  {
  }

  lemma CountKept(c: Core, m: Move)
    requires Counted(c) && Allowed(c, m)
    ensures Counted(Do(c, m))
  {
    hide Do, Cards, Ascending;
    var d := Do(c, m);
    CardsShrink(c, m);
    AscendsKept(c, m);
    CounterGrows(c, m);
    forall n ensures Cards(d)[n] <= 1 && (n in Cards(d) ==> n <= d.nextPending) {
      assert Cards(d)[n] <= (Cards(c) + Brought(c, m))[n];
      assert n in Cards(c) ==> n <= c.nextPending;
    }
  }

  lemma CounterGrows(c: Core, m: Move)
    requires Allowed(c, m)
    ensures c.nextPending <= Do(c, m).nextPending
    ensures m.PushCard? ==> Do(c, m).nextPending == c.nextPending + 1
  {
    hide Do, After, Facts;
    if Local(m) {
      LocalDoes(c, m);
    } else if SweepOf(m).Some? {
      SweepDoes(c, m);
    } else {
      RestDoes(c, m);
    }
  }

  // ----- Over any run -----

  lemma RunCounted(configured: set<string>, allowWrites: bool, events: seq<Event>)
    ensures Counted(Run(Fresh(configured, allowWrites), events))
  {
    hide Run, Do, Step, Ascending;
    var start := Fresh(configured, allowWrites);
    AnyRun(start, events);
    forall c, m | Ids(c) && Counted(c) && Good(c, m, NoCare) ensures Counted(Do(c, m)) {
      CountKept(c, m);
    }
    RunKeeps(Counted, start, events, NoCare);
  }

  /** After any run: the ids of waiting cards are pairwise distinct over all threads, ascend on each
      thread, and do not exceed the counter. */
  lemma CardIds(configured: set<string>, allowWrites: bool, events: seq<Event>, i: nat, j: nat, k: nat, l: nat)
    requires var c := Run(Fresh(configured, allowWrites), events);
             && i < |c.threads| && k < |c.threads[i].pending| && j < |c.threads| && l < |c.threads[j].pending|
    ensures var c := Run(Fresh(configured, allowWrites), events);
            var p, q := c.threads[i].pending[k], c.threads[j].pending[l];
            && p.id <= c.nextPending
            && (p.id == q.id <==> i == j && k == l)
            && (i == j && k < l ==> p.id < q.id)
  {
    hide Run, Sum;
    var c := Run(Fresh(configured, allowWrites), events);
    RunCounted(configured, allowWrites, events);
    assert Ascending(c.threads[i].pending, c.nextPending);
    if i != j {
      DistinctCards(c, if i < j then i else j, if i < j then j else i, if i < j then k else l, if i < j then l else k);
    }
  }

  lemma DistinctCards(c: Core, i: nat, j: nat, k: nat, l: nat)
    requires Counted(c) && i < j < |c.threads| && k < |c.threads[i].pending| && l < |c.threads[j].pending|
    ensures c.threads[i].pending[k].id != c.threads[j].pending[l].id
  {
    hide Sum, Ascending;
    var n := c.threads[i].pending[k].id;
    SumTwoOf(c.threads, i, j, LiveCards);
    SumOneOf(c.threads[i].pending, k, IdOf);
    SumOneOf(c.threads[j].pending, l, IdOf);
    assert (LiveCards(c.threads[i]) + LiveCards(c.threads[j]))[n] <= Sum(c.threads, LiveCards)[n];
    assert Cards(c)[n] <= 1;
  }

  /** After any run: no card, and so no answer of the user, let two commands run. */
  lemma OneRunPerCard(configured: set<string>, allowWrites: bool, events: seq<Event>, j: nat, k: nat)
    requires var c := Run(Fresh(configured, allowWrites), events);
             j < k < |c.log| && c.log[j].Ran? && c.log[k].Ran?
    ensures var c := Run(Fresh(configured, allowWrites), events);
            c.log[j].card != c.log[k].card
  {
    hide Run, Sum, Ascending, LiveCards;
    var c := Run(Fresh(configured, allowWrites), events);
    RunCounted(configured, allowWrites, events);
    SumTwoOf(c.log, j, k, UsedBy);
    var n := c.log[j].card;
    assert (UsedBy(c.log[j]) + UsedBy(c.log[k]))[n] <= Sum(c.log, UsedBy)[n];
    assert Cards(c)[n] <= 1;
  }

  // ----- The oldest waiting decision -----

  function MinId(ps: seq<Pending>): Option<nat> {
    if ps == [] then None
    else match MinId(ps[1..]) { case Some(n) => Some(if n < ps[0].id then n else ps[0].id) case None => Some(ps[0].id) }
  }

  /** The first thread whose oldest card is the oldest, among those with a card. */
  function Oldest(ts: seq<Thread>): (r: Option<nat>)
    ensures r.Some? ==> r.value < |ts| && ts[r.value].pending != []
  {
    if ts == [] then None
    else match Oldest(ts[1..])
      case None => if ts[0].pending == [] then None else Some(0)
      case Some(i) =>
        if ts[0].pending != [] && MinId(ts[0].pending).value <= MinId(ts[1..][i].pending).value then Some(0) else Some(i + 1)
  }

  predicate AtWork(t: Thread) {
    !(t.entries == [] && t.pending == [] && t.queued == []) && (t.status.Running? || t.status.Starting?)
  }

  function Newest(ts: seq<Thread>): (r: Option<nat>)
    ensures r.Some? ==> r.value < |ts| && AtWork(ts[r.value])
    ensures r.Some? ==> forall i :: r.value < i < |ts| ==> !AtWork(ts[i])
    ensures r.None? ==> forall i :: 0 <= i < |ts| ==> !AtWork(ts[i])
  {
    if ts == [] then None
    else if AtWork(ts[|ts| - 1]) then Some(|ts| - 1)
    else Newest(ts[..|ts| - 1])
  }

  /** `attention`: the thread that needs the user. */
  function Attention(ts: seq<Thread>): Option<nat> {
    if Oldest(ts).Some? then Oldest(ts) else Newest(ts)
  }

  lemma {:induction false} MinIsFirst(ps: seq<Pending>, bound: nat)
    requires ps != [] && Ascending(ps, bound)
    ensures MinId(ps) == Some(ps[0].id)
    decreases |ps|
  {
    if |ps| > 1 {
      MinIsFirst(ps[1..], bound);
    }
  }

  lemma {:induction false} OldestIsLeast(ts: seq<Thread>, bound: nat)
    requires forall i :: 0 <= i < |ts| ==> Ascending(ts[i].pending, bound)
    ensures Oldest(ts).None? <==> forall i :: 0 <= i < |ts| ==> ts[i].pending == []
    ensures Oldest(ts).Some? ==>
              forall i :: 0 <= i < |ts| && ts[i].pending != [] ==> ts[Oldest(ts).value].pending[0].id <= ts[i].pending[0].id
    decreases |ts|
  {
    hide Ascending;
    if ts != [] {
      assert forall i :: 0 <= i < |ts| - 1 ==> ts[1..][i] == ts[i + 1];
      OldestIsLeast(ts[1..], bound);
      var r := Oldest(ts[1..]);
      if ts[0].pending != [] {
        MinIsFirst(ts[0].pending, bound);
      }
      if r.Some? {
        MinIsFirst(ts[1..][r.value].pending, bound);
      }
      forall i | 0 <= i < |ts| && ts[i].pending != [] && Oldest(ts).Some?
        ensures ts[Oldest(ts).value].pending[0].id <= ts[i].pending[0].id
      {
        if i > 0 {
          assert ts[i] == ts[1..][i - 1];
        }
      }
    }
  }

  /** A thread that starts or runs, and was used: something is shown or queued. */
  predicate ShowsWork(t: Thread) { t.status in {Running, Starting} && |t.entries| + |t.queued| > 0 }

  lemma NewestExactly(ts: seq<Thread>)
    ensures var r := Newest(ts);
            (forall i :: 0 <= i < |ts| ==> ts[i].pending == []) ==>
              && (r.None? <==> forall i :: 0 <= i < |ts| ==> !ShowsWork(ts[i]))
              && (r.Some? ==> r.value < |ts| && ShowsWork(ts[r.value]) && forall i :: r.value < i < |ts| ==> !ShowsWork(ts[i]))
  {
    assert forall i :: 0 <= i < |ts| && ts[i].pending == [] ==> (AtWork(ts[i]) <==> ShowsWork(ts[i]));
  }

  /** After any run: while something waits, the thread that needs the user is the one whose first
      card has waited longest of all cards of all threads; else it is the newest thread at work. */
  lemma AttentionIsTheOldest(configured: set<string>, allowWrites: bool, events: seq<Event>)
    ensures var c := Run(Fresh(configured, allowWrites), events);
            var r := Attention(c.threads);
            if exists i :: 0 <= i < |c.threads| && c.threads[i].pending != [] then
              && r.Some? && r.value < |c.threads| && c.threads[r.value].pending != []
              && forall i, k :: 0 <= i < |c.threads| && 0 <= k < |c.threads[i].pending| && !(i == r.value && k == 0)
                   ==> c.threads[r.value].pending[0].id < c.threads[i].pending[k].id
            else
              && (r.None? <==> forall i :: 0 <= i < |c.threads| ==> !ShowsWork(c.threads[i]))
              && (r.Some? ==> r.value < |c.threads| && ShowsWork(c.threads[r.value]) && forall i :: r.value < i < |c.threads| ==> !ShowsWork(c.threads[i]))
  {
    hide Run, Newest, ShowsWork, Oldest;
    var c := Run(Fresh(configured, allowWrites), events);
    RunCounted(configured, allowWrites, events);
    OldestIsLeast(c.threads, c.nextPending);
    var r := Attention(c.threads);
    NewestExactly(c.threads);
    if exists i :: 0 <= i < |c.threads| && c.threads[i].pending != [] {
      forall i, k | 0 <= i < |c.threads| && 0 <= k < |c.threads[i].pending| && !(i == r.value && k == 0)
        ensures c.threads[r.value].pending[0].id < c.threads[i].pending[k].id
      {
        assert Ascending(c.threads[i].pending, c.nextPending);
        CardIds(configured, allowWrites, events, r.value, i, 0, k);
      }
    }
  }
}
