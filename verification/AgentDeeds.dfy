/** What ends of turns, the user and timers do to a thread, in full and in plain words. */
module AgentDeeds {
  import opened Wrappers
  import opened AgentTypes
  import opened AgentSteps
  import opened AgentMoves
  import opened AgentRuns
  import opened AgentEffects
  import opened AgentRequests
  import AgentChoices
  import AgentTold
  import Handing
  import Text
  import Transcripts

  // ----- Cards that are cancelled -----

  /** How a card is cancelled: its request is told so in the way of its kind, and a change is dropped. */
  ghost predicate Cancelled(p: Pending, fs: seq<Fact>) {
    && (p.responder.None? && p.approval.None? ==> fs == [])
    && (p.responder.None? && p.approval.Some? ==> fs == [Forgotten(p.approval.value)])
    && (p.responder.Some? ==>
          && |fs| == (if p.approval.Some? then 2 else 1)
          && fs[0] == Replied(p.responder.value,
                              match p.kind
                              case Permission(_, _, _, _, _) => PermissionCancelled
                              case Form(_) => FormCancelled
                              case OpenUrl(_, _, _) => FormCancelled
                              case Command(_, _, _, _) => Reply.Cancelled
                              case Read(_) => Reply.Cancelled
                              case Write(_, _, _) => Reply.Cancelled
                              case Change(_) => Reply.Cancelled)
          && (p.approval.Some? ==> fs[1] == Forgotten(p.approval.value)))
  }

  /** All cards, in their order. */
  ghost predicate AllCancelled(ps: seq<Pending>, fs: seq<Fact>)
    decreases |ps|
  {
    if ps == [] then fs == []
    else exists n :: 0 <= n <= |fs| && Cancelled(ps[0], fs[..n]) && AllCancelled(ps[1..], fs[n..])
  }

  lemma CancelExactly(p: Pending)
    ensures Cancelled(p, CancelFacts(p))
  {
  }

  lemma {:induction false} CancelAllExactly(ps: seq<Pending>)
    ensures AllCancelled(ps, CancelAll(ps))
  {
    hide CancelFacts, Cancelled;
    if ps != [] {
      var a, b := CancelFacts(ps[0]), CancelAll(ps[1..]);
      CancelExactly(ps[0]);
      CancelAllExactly(ps[1..]);
      assert (a + b)[..|a|] == a && (a + b)[|a|..] == b;
    }
  }

  // ----- Cards that stay -----

  /** The cards that pass, in their order. */
  ghost function Filter(ps: seq<Pending>, pass: Pending -> bool): seq<Pending> {
    if ps == [] then []
    else if pass(ps[0]) then [ps[0]] + Filter(ps[1..], pass)
    else Filter(ps[1..], pass)
  }

  function NoChange(p: Pending): bool { !p.kind.Change? }

  /** Not a change, or one that somebody still waits for. */
  function Live(closed: set<nat>): Pending -> bool {
    (p: Pending) => !p.kind.Change? || (p.approval.Some? && p.approval.value !in closed)
  }

  function OtherPage(elicitation: string): Pending -> bool {
    (p: Pending) => !(p.kind.OpenUrl? && p.kind.elicitation == elicitation)
  }

  lemma {:induction false} FilterLast(ps: seq<Pending>, p: Pending, pass: Pending -> bool)
    ensures Filter(ps + [p], pass) == Filter(ps, pass) + if pass(p) then [p] else []
  {
    if ps == [] {
      assert [p][1..] == [];
    } else {
      assert (ps + [p])[1..] == ps[1..] + [p];
      FilterLast(ps[1..], p, pass);
    }
  }

  lemma {:induction false} KeptExactly(ps: seq<Pending>, sieve: Sieve, pass: Pending -> bool)
    requires forall p :: pass(p) <==> Stays(p, sieve)
    ensures Kept(ps, sieve) == Filter(ps, pass)
  {
    hide Stays, Filter;
    if ps != [] {
      var front, last := ps[..|ps| - 1], ps[|ps| - 1];
      KeptExactly(front, sieve, pass);
      FilterLast(front, last, pass);
      assert ps == front + [last];
    } else {
      NoneFiltered(pass);
    }
  }

  lemma NoneFiltered(pass: Pending -> bool)
    ensures Filter([], pass) == []
  {
  }

  /** Changes are switched on exactly when that is asked for and the settings allow it; going off takes
      away the waiting changes, and only those. No other thread changes. */
  lemma SwitchExactly(c: Core, id: nat, enabled: bool, i: nat)
    requires Ids(c) && i < |c.threads| && c.threads[i].id == id
    ensures var t, on := c.threads[i], enabled && c.allowWrites;
            Step(c, SetWrites(id, enabled)).threads
            == c.threads[i := t.(writes := on, pending := if on then t.pending else Filter(t.pending, NoChange))]
  {
    hide Kept, SiftFacts, Filter, Ids;
    OwnId(c, i);
    KeptExactly(c.threads[i].pending, NoChanges, NoChange);
  }

  /** When the settings do not allow changes any more, all switches go off and all waiting changes go;
      else every thread stays as it is. */
  lemma SettingsExactly(c: Core, allow: bool, configured: set<string>)
    ensures var d := Step(c, SettingsChanged(allow, configured));
            && d.allowWrites == allow && |d.threads| == |c.threads|
            && forall i :: 0 <= i < |c.threads| ==>
                 var t := c.threads[i];
                 d.threads[i] == if allow then t else t.(writes := false, pending := Filter(t.pending, NoChange))
  {
    hide Kept, SweepFacts, SweepThreads, Filter;
    SweepAt(c.threads, RevokeWrites);
    forall i | 0 <= i < |c.threads| ensures Kept(c.threads[i].pending, NoChanges) == Filter(c.threads[i].pending, NoChange) {
      KeptExactly(c.threads[i].pending, NoChanges, NoChange);
    }
  }

  /** The pruner takes away the changes nobody waits for any more, and nothing else. */
  lemma PruneExactly(c: Core, closed: set<nat>)
    ensures var d := Step(c, Prune(closed));
            && |d.threads| == |c.threads|
            && forall i :: 0 <= i < |c.threads| ==>
                 var t := c.threads[i];
                 d.threads[i] == t.(pending := Filter(t.pending, Live(closed)))
  {
    hide Kept, SweepFacts, SweepThreads, Filter;
    SweepAt(c.threads, PruneChanges(closed));
    forall i | 0 <= i < |c.threads|
      ensures Kept(c.threads[i].pending, LiveChanges(closed))
              == Filter(c.threads[i].pending, Live(closed))
    {
      KeptExactly(c.threads[i].pending, LiveChanges(closed), Live(closed));
    }
  }

  /** A finished page takes the links to it off the agent's threads, and nothing else. */
  lemma PagesExactly(c: Core, agent: string, elicitation: string, wire: Option<nat>)
    ensures var d := Step(c, Call(agent, ElicitationComplete(elicitation), wire));
            && |d.threads| == |c.threads|
            && forall i :: 0 <= i < |c.threads| ==>
                 var t := c.threads[i];
                 d.threads[i] == if t.agent != agent then t
                                 else t.(pending := Filter(t.pending, OtherPage(elicitation)))
  {
    hide Kept, SweepFacts, SweepThreads, Filter;
    SweepAt(c.threads, UrlDone(agent, elicitation));
    forall i | 0 <= i < |c.threads|
      ensures Kept(c.threads[i].pending, NotUrl(elicitation))
              == Filter(c.threads[i].pending, OtherPage(elicitation))
    {
      KeptExactly(c.threads[i].pending, NotUrl(elicitation), OtherPage(elicitation));
    }
  }

  /** A proposed change becomes a card exactly on an open thread whose switch is on; else, and when
      nobody waits for it, it is dropped. */
  lemma ChangesExactly(c: Core, id: nat, proposal: string, approval: nat, gaveUp: bool)
    requires Ids(c)
    ensures var d := Step(c, ChangeRequested(id, proposal, approval, gaveUp));
            && (forall i: nat :: i < |c.threads| && c.threads[i].id == id && c.threads[i].writes && !gaveUp ==>
                  var card := Pending(c.nextPending + 1, Change(proposal), None, None, Some(approval));
                  d == c.(nextPending := c.nextPending + 1,
                          threads := c.threads[i := c.threads[i].(pending := c.threads[i].pending + [card])]))
            && (gaveUp || (forall i :: 0 <= i < |c.threads| && c.threads[i].id == id ==> !c.threads[i].writes) ==>
                  d == c.(nextPending := d.nextPending, log := c.log + [Forgotten(approval)]))
  {
    hide Ids;
    FirstIsFirst(c.threads, ById(id));
    forall i: nat | i < |c.threads| && c.threads[i].id == id ensures First(c.threads, ById(id)) == Some(i) {
      OwnId(c, i);
    }
  }

  // ----- Turns -----

  /** What the transcript says of the end of a turn. */
  ghost predicate SaysEnd(notes: seq<Transcripts.Entry>, result: TurnResult) {
    match result
    case Stopped(StopCancelled) => notes == [Transcripts.Notice("Stopped.", false)]
    case Stopped(MaxTokens) => notes == [Transcripts.Notice("The agent stopped: it reached its token limit.", true)]
    case Stopped(MaxTurnRequests) => notes == [Transcripts.Notice("The agent stopped: it reached its limit of steps.", true)]
    case Stopped(Refusal) => notes == [Transcripts.Notice("The agent declined to continue.", true)]
    case Stopped(_) => notes == []
    case TurnFailed(message) => notes == [Transcripts.Notice(message, true)]
    case AuthRequired => notes == []
  }

  lemma NoticeExactly(result: TurnResult)
    ensures SaysEnd(TurnNotice(result), result)
  {
  }

  /** The thread once a turn is over: no tool runs, no card waits, nothing opens. */
  ghost predicate Over(t: Thread, result: TurnResult, u: Thread) {
    exists notes :: SaysEnd(notes, result)
      && u == t.(entries := Transcripts.Settled(t.entries) + notes, pending := [], tasks := {},
                 status := if result == AuthRequired then NeedsSignIn else Idle)
  }

  lemma RestedExactly(t: Thread, result: TurnResult)
    ensures Over(t, result, Rested(t, result))
  {
    hide Transcripts.Settled;
    NoticeExactly(result);
  }

  /** The state without the prompt that ended. */
  function Landing(c: Core, conn: nat, id: nat, session: string): Core { c.(flights := c.flights - {Flight(conn, id, session)}) }

  /** The end of a turn settles the transcript and cancels every card. Then a thread whose agent wants a
      sign-in waits for it, with its queue; one with nothing queued is idle; any other is at work on its
      first queued prompt, which is in flight, while the others wait on. Nothing else changes. */
  lemma TurnEndsExactly(c: Core, agent: string, session: string, i: nat, conn: nat, id: nat, result: TurnResult, wire: nat)
    requires Ids(c) && IsOf(c, agent, session, i) && Connection(c, agent) == Some(conn)
    ensures var d, e, t := Step(c, Call(agent, TurnEndedCall(session, id, result), Some(wire))), Landing(c, conn, id, session), c.threads[i];
            exists u, fs :: Over(t, result, u) && AllCancelled(t.pending, fs) &&
              if result == AuthRequired || t.queued == [] then d == e.(threads := c.threads[i := u], log := c.log + fs)
              else d == e.(threads := c.threads[i := u.(queued := t.queued[1..], firstPrompt := false, status := Running)],
                           flights := e.flights[Flight(conn, wire, session) := t.id],
                           log := c.log + fs + [Handed(t.id, t.queued[0], conn, session, Some(wire))])
  {
    hide IsOf, Ids, TurnEndedStep, Over, AllCancelled, Rested, NextPrompt, RestAt;
    OfThread(c, agent, session, i);
    var t := c.threads[i];
    TurnIs(c, i, id, result, Some(wire));
    RestedExactly(t, result);
    CancelAllExactly(t.pending);
    var e := Landing(c, conn, id, session);
    LandingIds(c, conn, id, session);
    RestNext(e, i, conn, result, wire);
    StepIs(c, agent, session, id, result, Some(wire));
  }

  lemma OfThread(c: Core, agent: string, session: string, i: nat)
    requires IsOf(c, agent, session, i)
    ensures First(c.threads, BySession(agent, session)) == Some(i)
    ensures c.threads[i].agent == agent && c.threads[i].session == Some(session)
  {
    OfExactly(c, agent, session);
  }

  lemma StepIs(c: Core, agent: string, session: string, id: nat, result: TurnResult, wire: Option<nat>)
    ensures Step(c, Call(agent, TurnEndedCall(session, id, result), wire)) == TurnEndedStep(c, agent, session, id, result, wire)
  {
    hide TurnEndedStep;
  }

  lemma LandingIds(c: Core, conn: nat, id: nat, session: string)
    requires Ids(c)
    ensures Ids(Landing(c, conn, id, session))
  {
  }

  lemma TurnIs(c: Core, i: nat, id: nat, result: TurnResult, wire: Option<nat>)
    requires Ids(c) && i < |c.threads| && c.threads[i].session.Some? && Connection(c, c.threads[i].agent).Some?
    requires First(c.threads, BySession(c.threads[i].agent, c.threads[i].session.value)) == Some(i)
    ensures var t := c.threads[i];
            var e := Landing(c, Connection(c, t.agent).value, id, t.session.value);
            TurnEndedStep(c, t.agent, t.session.value, id, result, wire) == NextPrompt(RestAt(e, i, result), t.id, wire)
  {
    hide NextPrompt, RestAt, Ids, Rested;
    EndsTurn(c, i, id, result, wire);
  }

  lemma RestNext(e: Core, i: nat, conn: nat, result: TurnResult, wire: nat)
    requires Ids(e) && i < |e.threads| && e.threads[i].session.Some? && Connection(e, e.threads[i].agent) == Some(conn)
    ensures var t, u, fs := e.threads[i], Rested(e.threads[i], result), CancelAll(e.threads[i].pending);
            NextPrompt(RestAt(e, i, result), t.id, Some(wire)) ==
            if result == AuthRequired || t.queued == [] then e.(threads := e.threads[i := u], log := e.log + fs)
            else e.(threads := e.threads[i := u.(queued := t.queued[1..], firstPrompt := false, status := Running)],
                    flights := e.flights[Flight(conn, wire, t.session.value) := t.id],
                    log := e.log + fs + [Handed(t.id, t.queued[0], conn, t.session.value, Some(wire))])
  {
    hide CancelAll, Transcripts.Settled, TurnNotice, Ids;
    var d := RestAt(e, i, result);
    RestKeeps(e, i, result);
    OwnId(d, i);
    var u := d.threads[i];
    if CanPrompt(u) {
      assert d.threads[i := Busy(u)] == e.threads[i := Busy(u)];
    }
  }

  // ----- The next prompt -----

  /** An idle thread with a session hands its first queued prompt to its agent's connection, works on it,
      and keeps the others; without one, nothing changes. */
  lemma NextExactly(c: Core, i: nat, conn: nat, wire: nat)
    requires Ids(c) && i < |c.threads| && c.threads[i].status.Idle? && c.threads[i].session.Some?
    requires Connection(c, c.threads[i].agent) == Some(conn)
    ensures var t, d := c.threads[i], NextPrompt(c, c.threads[i].id, Some(wire));
            if t.queued == [] then d == c
            else d == c.(threads := c.threads[i := t.(queued := t.queued[1..], firstPrompt := false, status := Running)],
                         flights := c.flights[Flight(conn, wire, t.session.value) := t.id],
                         log := c.log + [Handed(t.id, t.queued[0], conn, t.session.value, Some(wire))])
  {
    hide Ids;
    OwnId(c, i);
  }

  /** Prompts that the connection did not take. */
  function NotTaken(t: Thread, ps: seq<Prompt>, conn: nat): seq<Fact>
    requires t.session.Some?
  {
    if ps == [] then [] else [Handed(t.id, ps[0], conn, t.session.value, None)] + NotTaken(t, ps[1..], conn)
  }

  /** The note about each of them. */
  function ClosedNotes(ps: seq<Prompt>): seq<Transcripts.Entry> {
    if ps == [] then [] else [Transcripts.Notice("The connection closed", true)] + ClosedNotes(ps[1..])
  }

  /** The thread when none of its prompts was taken. */
  function GaveUp(t: Thread): Thread {
    t.(entries := Transcripts.Settled(t.entries) + ClosedNotes(t.queued), queued := [], pending := [], tasks := {},
       firstPrompt := false, status := Idle)
  }

  /** When the connection takes no prompt any more, each queued one ends at once, in order, with a note that
      the connection closed; the cards are cancelled with the first. The thread is idle, and nothing else
      changes. */
  lemma AllFailExactly(c: Core, i: nat, conn: nat)
    requires Ids(c) && i < |c.threads| && CanPrompt(c.threads[i])
    requires Connection(c, c.threads[i].agent) == Some(conn)
    ensures var t := c.threads[i];
            exists fs :: AllCancelled(t.pending, fs) &&
              NextPrompt(c, t.id, None)
              == c.(threads := c.threads[i := GaveUp(t)],
                    log := c.log + (NotTaken(t, [t.queued[0]], conn) + fs + NotTaken(t, t.queued[1..], conn)))
  {
    hide Ids, NextPrompt, GaveUp, NotTaken, AllCancelled;
    CancelAllExactly(c.threads[i].pending);
    AllFail(c, i, conn);
  }

  lemma {:induction false} AllFail(c: Core, i: nat, conn: nat)
    requires Ids(c) && i < |c.threads| && CanPrompt(c.threads[i])
    requires Connection(c, c.threads[i].agent) == Some(conn)
    ensures var t := c.threads[i];
            NextPrompt(c, t.id, None)
            == c.(threads := c.threads[i := GaveUp(t)],
                  log := c.log + (NotTaken(t, [t.queued[0]], conn) + CancelAll(t.pending) + NotTaken(t, t.queued[1..], conn)))
    decreases |c.threads[i].queued|
  {
    hide Ids, Do, NextPrompt, GaveUp, NotTaken, CancelAll;
    var m, t := HandFails(i, conn), c.threads[i];
    var d := Do(c, m);
    AfterFailure(c, i, conn);
    FailsOnce(c, i, conn);
    var u := d.threads[i];
    if |t.queued| == 1 {
      assert u.queued == [];
      NothingNext(d, i);
      GaveUpAfterOne(t);
      assert NotTaken(t, t.queued[1..], conn) == [] by { NoneTaken(t, conn); }
    } else {
      assert CanPrompt(u);
      AllFail(d, i, conn);
      assert u == FailedOnce(t);
      GaveUpAfterMore(t);
      OneTaken(t, conn);
      SameTaken(t, u, [t.queued[1]], conn);
      SameTaken(t, u, t.queued[1..][1..], conn);
      assert u.queued == t.queued[1..] && u.queued[0] == t.queued[1] && u.pending == [];
      assert d.threads[i := GaveUp(u)] == c.threads[i := GaveUp(u)];
      NoCards();
      Logs(c.log, NotTaken(t, [t.queued[0]], conn) + CancelAll(t.pending), NotTaken(t, [t.queued[1]], conn), NotTaken(t, t.queued[1..][1..], conn));
    }
  }

  lemma NoCards()
    ensures CancelAll([]) == []
  {
  }

  lemma Logs(log: seq<Fact>, a: seq<Fact>, b: seq<Fact>, d: seq<Fact>)
    ensures (log + a) + (b + [] + d) == log + (a + (b + d))
  {
  }

  /** The thread when its first prompt was not taken. */
  function FailedOnce(t: Thread): Thread
    requires t.queued != []
  {
    t.(entries := Transcripts.Settled(t.entries) + [Transcripts.Notice("The connection closed", true)], queued := t.queued[1..],
       pending := [], tasks := {}, firstPrompt := false, status := Idle)
  }

  lemma FailsOnce(c: Core, i: nat, conn: nat)
    requires Allowed(c, HandFails(i, conn))
    ensures var t, d := c.threads[i], Do(c, HandFails(i, conn));
            d == c.(threads := c.threads[i := FailedOnce(t)], log := c.log + (NotTaken(t, [t.queued[0]], conn) + CancelAll(t.pending)))
  {
    hide Transcripts.Settled, CancelAll;
    var t := c.threads[i];
    assert [t.queued[0]][1..] == [];
    assert NotTaken(t, [t.queued[0]], conn) == [Handed(t.id, t.queued[0], conn, t.session.value, None)];
  }

  lemma NothingNext(c: Core, i: nat)
    requires Ids(c) && i < |c.threads| && c.threads[i].queued == []
    ensures NextPrompt(c, c.threads[i].id, None) == c
  {
    hide Ids;
    OwnId(c, i);
  }

  lemma GaveUpAfterOne(t: Thread)
    requires |t.queued| == 1
    ensures FailedOnce(t) == GaveUp(t)
  {
    hide Transcripts.Settled;
    assert t.queued[1..] == [] && ClosedNotes([]) == [];
    assert ClosedNotes(t.queued) == [Transcripts.Notice("The connection closed", true)] + ClosedNotes(t.queued[1..]);
  }

  lemma GaveUpAfterMore(t: Thread)
    requires |t.queued| > 1
    ensures GaveUp(FailedOnce(t)) == GaveUp(t)
  {
    hide Transcripts.Settled;
    var note := Transcripts.Notice("The connection closed", true);
    assert Transcripts.Settled(Transcripts.Settled(t.entries) + [note]) == Transcripts.Settled(t.entries) + [note];
    assert ClosedNotes(t.queued) == [note] + ClosedNotes(t.queued[1..]);
  }

  lemma NoneTaken(t: Thread, conn: nat)
    requires t.session.Some? && |t.queued| == 1
    ensures NotTaken(t, t.queued[1..], conn) == []
  {
    assert t.queued[1..] == [];
  }

  lemma OneTaken(t: Thread, conn: nat)
    requires t.session.Some? && |t.queued| > 1
    ensures NotTaken(t, t.queued[1..], conn) == NotTaken(t, [t.queued[1]], conn) + NotTaken(t, t.queued[1..][1..], conn)
  {
    assert [t.queued[1]][1..] == [];
    assert NotTaken(t, [t.queued[1]], conn) == [Handed(t.id, t.queued[1], conn, t.session.value, None)];
  }

  lemma {:induction false} SameTaken(t: Thread, u: Thread, ps: seq<Prompt>, conn: nat)
    requires t.id == u.id && t.session.Some? && t.session == u.session
    ensures NotTaken(t, ps, conn) == NotTaken(u, ps, conn)
  {
    if ps != [] {
      SameTaken(t, u, ps[1..], conn);
    }
  }

  // ----- Openings -----

  /** The end of an opening the thread still waits for: with a session the thread is idle in it and works
      on its first queued prompt, if there is one; else it waits for a sign-in, or has failed. The end of
      any other opening changes nothing. */
  lemma OpeningsExactly(c: Core, id: nat, task: nat, opening: Opening, i: nat, conn: nat, wire: nat)
    requires Ids(c) && i < |c.threads| && c.threads[i].id == id && Connection(c, c.threads[i].agent) == Some(conn)
    ensures var d, t := Step(c, SessionOpened(id, task, opening, Some(wire))), c.threads[i];
            var u := t.(tasks := t.tasks - {task});
            if task !in t.tasks then d == c
            else match opening
              case NeedsAuth => d == c.(threads := c.threads[i := u.(status := NeedsSignIn)])
              case OpeningFailed => d == c.(threads := c.threads[i := u.(status := Failed)])
              case Opened(session) =>
                var v := u.(session := Some(session), resume := None, firstPrompt := t.firstPrompt && t.resume.None?);
                if t.queued == [] then d == c.(threads := c.threads[i := v.(status := Idle)])
                else d == c.(threads := c.threads[i := v.(queued := t.queued[1..], firstPrompt := false, status := Running)],
                             flights := c.flights[Flight(conn, wire, session) := id],
                             log := c.log + [Handed(id, t.queued[0], conn, session, Some(wire))])
  {
    hide Ids, NextPrompt, OpenedThread;
    OwnId(c, i);
    if task in c.threads[i].tasks && opening.Opened? {
      OpenedExactly(c, i, task, opening.session, conn, wire);
    }
  }

  lemma OpenedGoesOn(c: Core, i: nat, task: nat, session: string, wire: nat)
    requires Ids(c) && i < |c.threads| && task in c.threads[i].tasks
    ensures SessionOpenedStep(c, c.threads[i].id, task, Opened(session), Some(wire))
            == NextPrompt(Do(c, OpenAs(i, task, session)), c.threads[i].id, Some(wire))
  {
    hide Ids, NextPrompt, OpenedThread;
    OwnId(c, i);
  }

  lemma OpenAllowed(c: Core, i: nat, task: nat, session: string)
    requires i < |c.threads| && task in c.threads[i].tasks
    ensures Allowed(c, OpenAs(i, task, session))
  {
  }

  lemma OpenedExactly(c: Core, i: nat, task: nat, session: string, conn: nat, wire: nat)
    requires Ids(c) && i < |c.threads| && task in c.threads[i].tasks && Connection(c, c.threads[i].agent) == Some(conn)
    ensures var d, t := Step(c, SessionOpened(c.threads[i].id, task, Opened(session), Some(wire))), c.threads[i];
            var v := t.(tasks := t.tasks - {task}, session := Some(session), resume := None, firstPrompt := t.firstPrompt && t.resume.None?);
            if t.queued == [] then d == c.(threads := c.threads[i := v.(status := Idle)])
            else d == c.(threads := c.threads[i := v.(queued := t.queued[1..], firstPrompt := false, status := Running)],
                         flights := c.flights[Flight(conn, wire, session) := t.id],
                         log := c.log + [Handed(t.id, t.queued[0], conn, session, Some(wire))])
  {
    hide Ids, NextPrompt, Do, SessionOpenedStep, Allowed;
    assert Allowed(c, OpenAs(i, task, session)) by { OpenAllowed(c, i, task, session); }
    OpensThere(c, i, task, session);
    OpenedGoesOn(c, i, task, session, wire);
    var e := Do(c, OpenAs(i, task, session));
    NextExactly(e, i, conn, wire);
    if c.threads[i].queued != [] {
      var v := e.threads[i].(queued := c.threads[i].queued[1..], firstPrompt := false, status := Running);
      assert e.threads[i := v] == c.threads[i := v];
    }
  }

  // ----- The user -----

  /** The thread with one more prompt. */
  function Prompted(t: Thread, prompt: Prompt): Thread {
    t.(entries := t.entries + [Transcripts.User(prompt.text, prompt.chips)], queued := t.queued + [prompt])
  }

  /** A prompt with nothing in it is ignored. Any other is shown at the end of the transcript and queued
      behind the others. A thread that works, starts or waits for a sign-in leaves it there; one that is idle
      in a session hands over the first of its queue; one that failed, ended or was not installed tries
      again. */
  lemma PromptsExactly(c: Core, id: nat, prompt: Prompt, i: nat, conn: nat, wire: nat)
    requires Ids(c) && i < |c.threads| && c.threads[i].id == id
    ensures var d, t := Step(c, Send(id, prompt, Some(wire))), c.threads[i];
            var u, queue := Prompted(t, prompt), t.queued + [prompt];
            var e := c.(threads := c.threads[i := u], log := c.log + [Fact.Asked(id, prompt)]);
            && (Text.Trim(prompt.text) == "" && prompt.chips == [] ==> d == c)
            && (!(Text.Trim(prompt.text) == "" && prompt.chips == []) ==>
                  && (t.status.Running? || t.status.Starting? || t.status.NeedsSignIn? ==> d == e)
                  && (t.status.Idle? && t.session.Some? && Connection(c, t.agent) == Some(conn) ==>
                        d == e.(threads := c.threads[i := u.(queued := queue[1..], firstPrompt := false, status := Running)],
                                flights := c.flights[Flight(conn, wire, t.session.value) := id],
                                log := e.log + [Handed(id, queue[0], conn, t.session.value, Some(wire))]))
                  && (t.status.Failed? || t.status.Ended? || t.status.NotInstalled? ==> d == Step(e, Retry(id))))
  {
    hide Ids, NextPrompt, RetryStep, Text.Trim;
    OwnId(c, i);
    var m := Enqueue(i, prompt);
    var e, t := Do(c, m), c.threads[i];
    assert Ids(e) by { QueuedIds(c, m); }
    if t.status.Idle? && t.session.Some? && Connection(c, t.agent) == Some(conn) {
      NextExactly(e, i, conn, wire);
      var v := e.threads[i].(queued := e.threads[i].queued[1..], firstPrompt := false, status := Running);
      assert e.threads[i := v] == c.threads[i := v];
    }
  }

  lemma QueuedIds(c: Core, m: Move)
    requires Ids(c) && Allowed(c, m) && m.Enqueue?
    ensures Ids(Do(c, m))
  {
  }

  /** Cancelling empties the queue and takes every card away, told as cancelled; the agent is interrupted
      exactly when the thread is at work and its agent connected. Nothing else changes. */
  lemma CancelsExactly(c: Core, id: nat, i: nat)
    requires Ids(c) && i < |c.threads| && c.threads[i].id == id
    ensures var d, t := Step(c, Cancel(id)), c.threads[i];
            exists fs, gone :: AllCancelled(t.pending, fs) && |gone| == |t.queued|
              && (forall k :: 0 <= k < |gone| ==> gone[k] == Withdrawn(id, t.queued[k]))
              && d == c.(threads := c.threads[i := t.(queued := [], pending := [])],
                         log := c.log + (gone + fs + if t.status.Running? && t.session.Some? && Connection(c, t.agent).Some?
                                                     then [Interrupted(Connection(c, t.agent).value, t.session.value)] else []))
  {
    hide Ids, CancelAll, WithdrawAll, AllCancelled;
    OwnId(c, i);
    var t := c.threads[i];
    CancelAllExactly(t.pending);
    WithdrawnExactly(id, t.queued);
    var fs, gone := CancelAll(t.pending), WithdrawAll(id, t.queued);
    assert AllCancelled(t.pending, fs);
    assert Step(c, Cancel(id)) == CancelAt(c, i);
  }

  lemma {:induction false} WithdrawnExactly(id: nat, ps: seq<Prompt>)
    ensures var gone := WithdrawAll(id, ps); |gone| == |ps| && forall k :: 0 <= k < |ps| ==> gone[k] == Withdrawn(id, ps[k])
  {
    if ps != [] {
      WithdrawnExactly(id, ps[1..]);
    }
  }

  /** An answer takes just its card off its thread; it gives a grant for the card's command when it lets
      one run, and otherwise changes no thread. */
  lemma AnswersTakeTheirCard(c: Core, id: nat, card: nat, answer: Answer, i: nat, j: nat)
    requires Ids(c) && i < |c.threads| && c.threads[i].id == id && j < |c.threads[i].pending| && c.threads[i].pending[j].id == card
    requires forall k :: 0 <= k < j ==> c.threads[i].pending[k].id != card
    ensures var d, t, item := Step(c, AnswerCard(id, card, answer)), c.threads[i], c.threads[i].pending[j];
            var u := t.(pending := t.pending[..j] + t.pending[j + 1..]);
            d.threads == c.threads[i := if item.responder.Some? && AgentTold.Lets(Chosen(id, item, answer, true))
                                        then u.(grant := Some(Grant(c.now, item.kind.command, card))) else u]
  {
    hide Ids, AnswerTaken, AnswerFacts, Grants, AgentTold.Lets, Facts, CardAt;
    OwnId(c, i);
    CardIsAt(c.threads[i].pending, card, j);
    TakeAnswerDoes(c, i, j, answer);
    LetsExactly(id, c.threads[i].pending[j], answer);
    assert Step(c, AnswerCard(id, card, answer)) == Do(c, TakeAnswer(i, j, answer));
  }

  lemma LetsExactly(id: nat, item: Pending, answer: Answer)
    ensures Grants(item, answer) <==> item.responder.Some? && AgentTold.Lets(Chosen(id, item, answer, true))
  {
    hide ChoiceOf;
    if item.kind.Permission? {
      AgentChoices.ChoiceExactly(item.kind.choices, answer);
      forall k: nat | AgentChoices.Picks(item.kind.choices, answer, k) ensures ChoiceOf(item.kind.choices, answer) == Some(item.kind.choices[k]) {
        AgentChoices.OnePick(item.kind.choices, answer, k);
      }
    }
  }

  lemma {:induction false} CardIsAt(ps: seq<Pending>, card: nat, j: nat)
    requires j < |ps| && ps[j].id == card && forall k :: 0 <= k < j ==> ps[k].id != card
    ensures CardAt(ps, card) == Some(j)
  {
    if j > 0 {
      CardIsAt(ps[1..], card, j - 1);
    }
  }

  // ----- Starting -----

  /** The thread waits for a session: it has none, and starts, or could not start before. */
  predicate WaitsFor(t: Thread, agent: string) {
    && t.agent == agent && t.session.None?
    && (t.status == Starting || t.status == NotInstalled || t.status == Failed || t.status == Ended)
  }

  /** Only the status and the openings differ. */
  predicate Beginning(t: Thread, u: Thread) { u == t.(status := u.status, tasks := u.tasks) }

  /** Each thread that waits from `i` on opens with a handle of its own; the others stay as they are. */
  lemma {:induction false} OpensExactly(c: Core, agent: string, i: nat)
    requires Connection(c, agent).Some? && forall k :: 0 <= k < |c.threads| ==> c.threads[k].cluster in c.contexts
    ensures var d := OpenFrom(c, agent, i);
            && |d.threads| == |c.threads| && c.nextTask <= d.nextTask
            && forall k :: 0 <= k < |c.threads| ==>
                 if i <= k && WaitsFor(c.threads[k], agent)
                 then exists task :: c.nextTask <= task < d.nextTask
                        && d.threads[k] == c.threads[k].(status := Starting, tasks := c.threads[k].tasks + {task})
                 else d.threads[k] == c.threads[k]
    decreases |c.threads| - i
  {
    hide WaitsFor;
    if i < |c.threads| {
      assert Waiting(c.threads[i], agent) <==> WaitsFor(c.threads[i], agent) by { WaitingExactly(c.threads[i], agent); }
      if WaitsFor(c.threads[i], agent) {
        WaitsFacts(c.threads[i], agent);
        var e := OpenSession(SetStatus(c, i, Starting), i);
        OpensExactly(e, agent, i + 1);
        assert e.threads[i] == c.threads[i].(status := Starting, tasks := c.threads[i].tasks + {c.nextTask});
      } else {
        OpensExactly(c, agent, i + 1);
      }
    }
  }

  lemma WaitingExactly(t: Thread, agent: string)
    ensures Waiting(t, agent) <==> WaitsFor(t, agent)
  {
  }

  lemma WaitsFacts(t: Thread, agent: string)
    requires WaitsFor(t, agent)
    ensures t.agent == agent
  {
  }

  /** When an agent that is awaited connects, every thread that waits for it opens a session, and no other
      thread changes. */
  lemma ConnectsExactly(c: Core, agent: string, task: nat, conn: nat)
    requires agent in c.slots && c.slots[agent] == StartingSlot(task)
    requires forall k :: 0 <= k < |c.threads| ==> c.threads[k].cluster in c.contexts
    ensures var d := Step(c, AgentStarted(agent, task, Some(conn)));
            && Connection(d, agent) == Some(conn) && |d.threads| == |c.threads|
            && forall k :: 0 <= k < |c.threads| ==>
                 if WaitsFor(c.threads[k], agent)
                 then exists opening :: c.nextTask <= opening < d.nextTask
                        && d.threads[k] == c.threads[k].(status := Starting, tasks := c.threads[k].tasks + {opening})
                 else d.threads[k] == c.threads[k]
  {
    hide OpenFrom, WaitsFor;
    var e := c.(slots := c.slots[agent := Ready(conn)]);
    OpensExactly(e, agent, 0);
    Handing.OpenFromLeaves(e, agent, 0);
    assert Step(c, AgentStarted(agent, task, Some(conn))) == OpenFrom(e, agent, 0);
  }

  lemma {:induction false} OpenFromBegins(c: Core, agent: string, i: nat)
    ensures var d := OpenFrom(c, agent, i);
            |d.threads| == |c.threads| && forall k :: 0 <= k < |c.threads| ==> Beginning(c.threads[k], d.threads[k])
    decreases |c.threads| - i
  {
    hide Waiting, OpenSession, SetStatus;
    if i < |c.threads| {
      OpenBegins(c, i);
      OpenFromBegins(OpenSession(SetStatus(c, i, Starting), i), agent, i + 1);
      OpenFromBegins(c, agent, i + 1);
    }
  }

  lemma OpenBegins(c: Core, i: nat)
    requires i < |c.threads|
    ensures var d := OpenSession(SetStatus(c, i, Starting), i);
            |d.threads| == |c.threads| && forall k :: 0 <= k < |c.threads| ==> Beginning(c.threads[k], d.threads[k])
  {
  }

  lemma EnsureBegins(c: Core, agent: string)
    ensures var d := EnsureAgent(c, agent);
            |d.threads| == |c.threads| && forall k :: 0 <= k < |c.threads| ==> Beginning(c.threads[k], d.threads[k])
  {
    hide OpenFrom, SweepThreads, SweepFacts;
    OpenFromBegins(c, agent, 0);
    SweepAt(c.threads, Missing(agent));
  }

  /** A new thread comes last, with a new id; its first prompt is shown and queued. It has no session, no
      card, no grant and no leave to propose changes. The other threads change in nothing but their status
      and openings. */
  lemma ThreadsStartExactly(c: Core, agent: string, cluster: string, cwd: string, first: Option<Prompt>, resume: Option<string>)
    ensures var d := Step(c, StartThread(agent, cluster, cwd, first, resume));
            && |d.threads| == |c.threads| + 1 && d.nextThread == c.nextThread + 1
            && (forall k :: 0 <= k < |c.threads| ==> Beginning(c.threads[k], d.threads[k]))
            && var t := d.threads[|c.threads|];
               && t.id == c.nextThread + 1 && t.agent == agent && t.cluster == cluster && t.cwd == cwd
               && t.session.None? && t.resume == resume && t.pending == [] && t.grant.None? && !t.writes && t.firstPrompt
               && t.queued == (if first.Some? then [first.value] else [])
               && t.entries == if first.Some? then [Transcripts.User(first.value.text, first.value.chips)] else []
  {
    hide EnsureAgent;
    var m := Add(NewThread(c.nextThread + 1, agent, cluster, cwd, first, resume), first);
    var e := Do(c, m);
    assert e.threads == c.threads + [m.thread];
    EnsureBegins(e, agent);
    EnsureCounter(e, agent);
    assert Step(c, StartThread(agent, cluster, cwd, first, resume)) == EnsureAgent(e, agent);
  }

  lemma EnsureCounter(c: Core, agent: string)
    ensures EnsureAgent(c, agent).nextThread == c.nextThread
  {
    hide OpenFrom, SweepThreads, SweepFacts;
    OpenCounter(c, agent, 0);
  }

  lemma {:induction false} OpenCounter(c: Core, agent: string, i: nat)
    ensures OpenFrom(c, agent, i).nextThread == c.nextThread
    decreases |c.threads| - i
  {
    hide Waiting;
    if i < |c.threads| {
      OpenCounter(OpenSession(SetStatus(c, i, Starting), i), agent, i + 1);
      OpenCounter(c, agent, i + 1);
    }
  }

  /** Closing takes just that thread away. */
  lemma ClosesExactly(c: Core, id: nat, i: nat)
    requires Ids(c) && i < |c.threads| && c.threads[i].id == id
    ensures Step(c, CloseThread(id)).threads == c.threads[..i] + c.threads[i + 1..]
  {
    hide Ids, CancelAll, WithdrawAll;
    OwnId(c, i);
  }
}
