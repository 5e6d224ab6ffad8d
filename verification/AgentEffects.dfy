/** What a move changes, field by field: the thread it touches, and what it adds to the history. */
module AgentEffects {
  import opened Wrappers
  import opened AgentTypes
  import opened AgentSteps
  import opened AgentMoves
  import Policy
  import Text
  import Transcripts

  /** The moves that change one thread and leave the others alone. */
  predicate Local(m: Move) {
    || m.Enqueue? || m.Edit? || m.Open? || m.Mark? || m.Withdraw? || m.Hand? || m.HandFails? || m.Lose? || m.Rest?
    || m.OpenAs? || m.OpenFails? || m.Writes? || m.PushCard? || m.RunGranted? || m.TakeAnswer?
  }

  /** What a move that goes over all threads does to each. */
  function SweepOf(m: Move): Option<Sweep> {
    match m
    case Abort(agent) => Some(StartFailed(agent))
    case NoProgram(agent) => Some(Missing(agent))
    case Gone(agent) => Some(AgentGone(agent))
    case Settings(allow) => if allow then None else Some(RevokeWrites)
    case Sift(sweep) => Some(sweep)
    case _ => None
  }

  function NewCard(c: Core, kind: PendingKind, responder: Option<Token>, launch: Option<Launch>,
                   approval: Option<nat>): Pending {
    Pending(c.nextPending + 1, kind, responder, launch, approval)
  }

  /** Allowing a permission prompt for commands grants its command. */
  predicate Grants(item: Pending, answer: Answer) {
    && item.responder.Some? && item.kind.Permission? && item.kind.execute
    && ChoiceOf(item.kind.choices, answer).Some? && ChoiceOf(item.kind.choices, answer).value.allow
  }

  function Removed<T>(s: seq<T>, j: nat): seq<T>
    requires j < |s|
  {
    s[..j] + s[j + 1..]
  }

  /** The thread a local move leaves. */
  ghost function After(c: Core, m: Move): Thread
    requires Allowed(c, m) && Local(m)
  {
    var t := c.threads[m.i];
    match m
    case Enqueue(_, p) => t.(entries := t.entries + [Transcripts.User(p.text, p.chips)], queued := t.queued + [p])
    case Edit(_, entries) => t.(entries := entries)
    case Open(_) => if t.cluster in c.contexts then t.(tasks := t.tasks + {c.nextTask}) else t
    case Mark(_, status) => t.(status := status)
    case Withdraw(_) => t.(queued := [], pending := [])
    case Hand(_, _, _) => Busy(t)
    case HandFails(_, _) => Rested(Busy(t), ClosedError())
    case Lose(_) => Busy(t)
    case Rest(_, _, result) => Rested(t, result)
    case OpenAs(_, task, session) => OpenedThread(t.(tasks := t.tasks - {task}), session)
    case OpenFails(_, task, status) => t.(tasks := t.tasks - {task}, status := status)
    case Writes(_, on) => if on then t.(writes := true) else t.(writes := false, pending := Kept(t.pending, NoChanges))
    case PushCard(_, kind, responder, launch, approval) =>
      t.(pending := t.pending + [NewCard(c, kind, responder, launch, approval)])
    case RunGranted(_, _, _) => t.(grant := None)
    case TakeAnswer(_, j, answer) =>
      var item := t.pending[j];
      t.(pending := Removed(t.pending, j),
         grant := if Grants(item, answer) then Some(Grant(c.now, item.kind.command, item.id)) else t.grant)
  }

  /** What the answer to a card that is not a change adds to the history. */
  function ItemFacts(c: Core, t: Thread, item: Pending, token: Token, answer: Answer): seq<Fact> {
    match item.kind
    case Permission(_, _, command, _, choices) =>
      (match ChoiceOf(choices, answer)
       case None => [Replied(token, PermissionCancelled)]
       case Some(choice) =>
         (if Grants(item, answer) then [Granted(t.id, item.id, command, c.now)] else [])
         + [Replied(token, Selected(choice.id))])
    case Command(_, _, _, warned) =>
      if !Yes(answer) then [Replied(token, UserDeclined)]
      else if item.launch.None? then [Replied(token, Unanswered)]
      else if Connection(c, t.agent).None? then [Replied(token, AgentStopped)]
      else [Ran(t.id, item.launch.value, item.id, false, warned, c.now, token)]
    case Read(_) => if Yes(answer) then [] else [Replied(token, UserDeclined)]
    case Write(_, _, _) => if Yes(answer) then [] else [Replied(token, UserDeclined)]
    case Form(_) => [Replied(token, if answer.Submit? then Accepted(answer.content) else Declined)]
    case OpenUrl(_, _, _) => [Replied(token, if Yes(answer) then Accepted("{}") else Declined)]
    case Change(_) => [Replied(token, Unanswered)]
  }

  function AnswerFacts(c: Core, t: Thread, item: Pending, answer: Answer): seq<Fact> {
    if item.kind.Change? then
      (match item.approval
       case None => DropResponder(item)
       case Some(a) => [Decided(a, if Yes(answer) then Approved else Rejected)] + DropResponder(item))
    else match item.responder
      case None => ForgetFacts(item)
      case Some(token) => ForgetFacts(item) + ItemFacts(c, t, item, token, answer)
  }

  /** What a move adds to the history. */
  ghost function Facts(c: Core, m: Move): seq<Fact>
    requires Allowed(c, m)
  {
    if SweepOf(m).Some? then SweepFacts(c.threads, SweepOf(m).value)
    else match m
      case Say(facts) => facts
      case Pass(i, p, token) =>
        [LetThrough(c.threads[i].id, p, KnownTitle(c.threads[i], p), token), Replied(token, Selected(AllowOption(p.options).value))]
      case FinishJob(job, ok) => [Replied(c.jobs[job].token, JobReply(c.jobs[job], ok))]
      case Add(t, Some(p)) => [Asked(t.id, p)]
      case Enqueue(i, p) => [Asked(c.threads[i].id, p)]
      case Withdraw(i) => WithdrawAll(c.threads[i].id, c.threads[i].queued) + WithdrawnCards(c, i)
      case Hand(i, conn, id) => [Handed(c.threads[i].id, c.threads[i].queued[0], conn, c.threads[i].session.value, Some(id))]
      case HandFails(i, conn) =>
        [Handed(c.threads[i].id, c.threads[i].queued[0], conn, c.threads[i].session.value, None)] + CancelAll(c.threads[i].pending)
      case Lose(i) => [Lost(c.threads[i].id, c.threads[i].queued[0])]
      case Rest(i, _, _) => CancelAll(c.threads[i].pending)
      case Writes(i, on) => if on then [] else SiftFacts(c.threads[i].pending, NoChanges)
      case RunGranted(i, r, token) =>
        var t := c.threads[i];
        if Connection(c, t.agent).None? then [Replied(token, AgentStopped)]
        else [Ran(t.id, LaunchOf(t, r), t.grant.value.card, true, Warned(r), c.now, token)]
      case TakeAnswer(i, j, answer) =>
        var t := c.threads[i];
        [Chosen(t.id, t.pending[j], answer, c.allowWrites && t.writes)] + AnswerFacts(c, t, t.pending[j], answer)
      case _ => []
  }

  /** What `cancel` adds besides the withdrawn prompts. */
  function WithdrawnCards(c: Core, i: nat): seq<Fact>
    requires i < |c.threads|
  {
    var t := c.threads[i];
    CancelAll(t.pending)
    + if t.status.Running? && t.session.Some? && Connection(c, t.agent).Some?
      then [Interrupted(Connection(c, t.agent).value, t.session.value)] else []
  }

  /** What the end of work tells the agent. */
  function JobReply(job: Job, ok: bool): Reply {
    if !ok then WorkFailed else if job.RunJob? then TerminalCreated else FileDone
  }

  // ----- The effects are those -----

  lemma {:induction false} SweepAt(ts: seq<Thread>, s: Sweep)
    ensures |SweepThreads(ts, s)| == |ts|
    ensures forall i :: 0 <= i < |ts| ==> SweepThreads(ts, s)[i] == Swept(ts[i], s)
  {
    hide Swept;
    if ts != [] {
      SweepAt(ts[..|ts| - 1], s);
    }
  }

  /** The answer changes the thread and the history, and the running work. */
  lemma TakeAnswerDoes(c: Core, i: nat, j: nat, answer: Answer)
    requires i < |c.threads| && j < |c.threads[i].pending|
    ensures var m := TakeAnswer(i, j, answer);
            Do(c, m) == c.(threads := c.threads[i := After(c, m)], log := c.log + Facts(c, m), jobs := Do(c, m).jobs)
  {
    hide Grants, AnswerTaken, AnswerFacts, ChoiceOf;
    var t := c.threads[i];
    var item, d := t.pending[j], TakeCard(c, i, j);
    AnswerTakenDoes(d, i, item, answer);
    SameAnswer(c, d, t, d.threads[i], item, answer);
    assert d.threads[i := WithGrant(c, d.threads[i], item, answer)] == c.threads[i := WithGrant(c, d.threads[i], item, answer)];
  }

  lemma SameAnswer(c: Core, d: Core, t: Thread, u: Thread, item: Pending, answer: Answer)
    requires c.slots == d.slots && c.now == d.now && t.id == u.id && t.agent == u.agent
    ensures AnswerFacts(c, t, item, answer) == AnswerFacts(d, u, item, answer)
  {
    hide ChoiceOf;
  }

  function WithGrant(c: Core, t: Thread, item: Pending, answer: Answer): Thread {
    if Grants(item, answer) then t.(grant := Some(Grant(c.now, item.kind.command, item.id))) else t
  }

  lemma AnswerTakenDoes(c: Core, i: nat, item: Pending, answer: Answer)
    requires i < |c.threads|
    ensures var t, d := c.threads[i], AnswerTaken(c, c.threads[i].id, i, item, answer);
            d == c.(threads := c.threads[i := WithGrant(c, t, item, answer)],
                    log := c.log + ([Chosen(t.id, item, answer, c.allowWrites && t.writes)] + AnswerFacts(c, t, item, answer)),
                    jobs := d.jobs)
  {
    hide ChoiceOf, ItemFacts, AnswerItem;
    var t := c.threads[i];
    var chosen := [Chosen(t.id, item, answer, c.allowWrites && t.writes)];
    var c1 := Log(c, chosen);
    assert c.threads[i := t] == c.threads;
    if item.kind.Change? {
      Text.Assoc(c.log, chosen, AnswerFacts(c, t, item, answer));
    } else if item.responder.None? {
      Text.Assoc(c.log, chosen, ForgetFacts(item));
    } else {
      var token, forget := item.responder.value, ForgetFacts(item);
      var c2 := Log(c1, forget);
      var own := ItemFacts(c, t, item, token, answer);
      assert ItemFacts(c2, t, item, token, answer) == own by { SameItem(c, c2, t, item, token, answer); }
      ItemDoes(c2, i, item, token, answer);
      Text.Assoc(c.log, chosen, forget);
      Text.Assoc(c.log, chosen + forget, own);
      Text.Assoc(chosen, forget, own);
    }
  }

  lemma SameItem(c: Core, d: Core, t: Thread, item: Pending, token: Token, answer: Answer)
    requires c.slots == d.slots && c.now == d.now
    ensures ItemFacts(c, t, item, token, answer) == ItemFacts(d, t, item, token, answer)
  {
    hide ChoiceOf;
  }

  lemma ItemDoes(c: Core, i: nat, item: Pending, token: Token, answer: Answer)
    requires i < |c.threads| && item.responder == Some(token)
    ensures var t := c.threads[i];
            AnswerItem(c, i, item, token, answer)
            == c.(threads := c.threads[i := WithGrant(c, t, item, answer)],
                  log := c.log + ItemFacts(c, t, item, token, answer), jobs := AnswerItem(c, i, item, token, answer).jobs)
  {
    hide ChoiceOf, AnswerPermission;
    assert c.threads[i := c.threads[i]] == c.threads;
    assert c.log + [] == c.log;
    match item.kind
    case Permission(_, _, _, _, _) => PermissionDoes(c, i, item, token, answer);
    case Command(_, _, _, _) =>
    case Read(_) =>
    case Write(_, _, _) =>
    case Form(_) =>
    case OpenUrl(_, _, _) =>
    case Change(_) =>
  }

  lemma PermissionDoes(c: Core, i: nat, item: Pending, token: Token, answer: Answer)
    requires i < |c.threads| && item.responder == Some(token) && item.kind.Permission?
    ensures var t := c.threads[i];
            AnswerPermission(c, i, item, token, answer)
            == c.(threads := c.threads[i := WithGrant(c, t, item, answer)], log := c.log + ItemFacts(c, t, item, token, answer))
  {
    hide ChoiceOf;
    assert c.threads[i := c.threads[i]] == c.threads;
    if Grants(item, answer) {
      var a := [Granted(c.threads[i].id, item.id, item.kind.command, c.now)];
      Text.Assoc(c.log, a, [Replied(token, Selected(ChoiceOf(item.kind.choices, answer).value.id))]);
    } else {
      assert forall r: Fact :: [] + [r] == [r];
    }
  }

  lemma HandFailsDoes(c: Core, i: nat, conn: nat)
    requires Allowed(c, HandFails(i, conn))
    ensures var m := HandFails(i, conn);
            Do(c, m) == c.(threads := c.threads[i := After(c, m)], log := c.log + Facts(c, m))
  {
    hide CancelAll, Transcripts.Settled, TurnNotice;
    var t := c.threads[i];
    assert c.threads[i := Busy(t)][i := Rested(Busy(t), ClosedError())] == c.threads[i := Rested(Busy(t), ClosedError())];
    var a, b := [Handed(t.id, t.queued[0], conn, t.session.value, None)], CancelAll(t.pending);
    assert c.log + a + b == c.log + (a + b);
  }

  /** A local move changes its thread, adds its facts, and of the rest only what its kind says. */
  lemma LocalDoes(c: Core, m: Move)
    requires Allowed(c, m) && Local(m)
    ensures var d := Do(c, m);
            && d.threads == c.threads[m.i := After(c, m)] && d.log == c.log + Facts(c, m)
            && d.slots == c.slots && d.contexts == c.contexts && d.pruner == c.pruner && d.now == c.now
            && d.allowWrites == c.allowWrites && d.nextThread == c.nextThread
            && d.nextPending == (if m.PushCard? then c.nextPending + 1 else c.nextPending)
            && d.flights == (match m
                             case Hand(i, conn, id) => c.flights[Flight(conn, id, c.threads[i].session.value) := c.threads[i].id]
                             case Rest(i, id, _) => ForgetFlight(c, c.threads[i].agent, c.threads[i].session.value, id).flights
                             case _ => c.flights)
  {
    hide Transcripts.Settled, TurnNotice, CancelAll, SiftFacts, Kept, WithdrawAll, ChoiceOf, AnswerTaken, CoveredBy, Warned,
         LaunchOf, Busy, Rested, OpenedThread;
    if m.TakeAnswer? {
      TakeAnswerDoes(c, m.i, m.j, m.answer);
    } else if m.Withdraw? {
      WithdrawDoes(c, m.i);
    } else if m.HandFails? {
      HandFailsDoes(c, m.i, m.conn);
    } else if m.Hand? || m.Rest? {
      TurnDoes(c, m);
    } else {
      OtherDoes(c, m);
    }
  }

  lemma WithdrawDoes(c: Core, i: nat)
    requires i < |c.threads|
    ensures var m := Withdraw(i);
            Do(c, m) == c.(threads := c.threads[i := After(c, m)], log := c.log + Facts(c, m))
  {
    hide WithdrawAll, CancelAll;
    var t := c.threads[i];
    var stop := if t.status.Running? && t.session.Some? && Connection(c, t.agent).Some?
      then [Interrupted(Connection(c, t.agent).value, t.session.value)] else [];
    var w, k := WithdrawAll(t.id, t.queued), CancelAll(t.pending);
    assert w + k + stop == w + (k + stop);
  }

  lemma TurnDoes(c: Core, m: Move)
    requires Allowed(c, m) && (m.Hand? || m.Rest?)
    ensures Do(c, m) == c.(threads := c.threads[m.i := After(c, m)], log := c.log + Facts(c, m), flights := Do(c, m).flights)
    ensures Do(c, m).flights == if m.Hand? then c.flights[Flight(m.conn, m.id, c.threads[m.i].session.value) := c.threads[m.i].id]
                                else ForgetFlight(c, c.threads[m.i].agent, c.threads[m.i].session.value, m.id).flights
  {
    hide Transcripts.Settled, TurnNotice, CancelAll, Busy, Rested;
  }

  lemma OtherDoes(c: Core, m: Move)
    requires Allowed(c, m) && Local(m) && !m.TakeAnswer? && !m.Withdraw? && !m.HandFails? && !m.Hand? && !m.Rest?
    ensures var d := Do(c, m);
            d == c.(threads := c.threads[m.i := After(c, m)], log := c.log + Facts(c, m), jobs := d.jobs, nextTask := d.nextTask,
                    nextPending := if m.PushCard? then c.nextPending + 1 else c.nextPending)
  {
    hide Do, After, Facts;
    if m.RunGranted? {
      RunDoes(c, m);
    } else if m.Writes? {
      WritesDoes(c, m);
    } else {
      FieldDoes(c, m);
    }
  }

  lemma RunDoes(c: Core, m: Move)
    requires Allowed(c, m) && m.RunGranted?
    ensures var d := Do(c, m);
            d == c.(threads := c.threads[m.i := After(c, m)], log := c.log + Facts(c, m), jobs := d.jobs)
  {
    hide Policy.Covers, Warned, LaunchOf;
  }

  lemma WritesDoes(c: Core, m: Move)
    requires Allowed(c, m) && m.Writes?
    ensures Do(c, m) == c.(threads := c.threads[m.i := After(c, m)], log := c.log + Facts(c, m))
  {
    hide SiftFacts, Kept;
    assert c.log + [] == c.log;
  }

  /** Moves that set fields of the thread. */
  lemma FieldDoes(c: Core, m: Move)
    requires Allowed(c, m) && Local(m) && !m.TakeAnswer? && !m.Withdraw? && !m.HandFails? && !m.Hand? && !m.Rest?
    requires !m.RunGranted? && !m.Writes?
    ensures var d := Do(c, m);
            d == c.(threads := c.threads[m.i := After(c, m)], log := c.log + Facts(c, m), nextTask := d.nextTask,
                    nextPending := if m.PushCard? then c.nextPending + 1 else c.nextPending)
  {
    hide Busy, OpenedThread, Transcripts.Keeps, Transcripts.UniqueTools, ShownEnv, Policy.Line;
    assert c.threads[m.i := c.threads[m.i]] == c.threads;
    assert c.log + [] == c.log;
  }

  /** A move over all threads changes each on its own. */
  lemma SweepDoes(c: Core, m: Move)
    requires Allowed(c, m) && SweepOf(m).Some?
    ensures var d, s := Do(c, m), SweepOf(m).value;
            && d.threads == SweepThreads(c.threads, s) && d.log == c.log + Facts(c, m)
            && d.contexts == c.contexts && d.pruner == c.pruner && d.now == c.now && d.nextThread == c.nextThread
            && d.nextPending == c.nextPending && d.flights == c.flights
            && d.allowWrites == (if m.Settings? then false else c.allowWrites)
            && d.slots == (if m.Abort? || m.Gone? then c.slots - {m.agent} else c.slots)
  {
    hide SweepThreads, SweepFacts;
  }

  /** The other moves leave the threads as they are, or add or remove one at the end of its use. */
  lemma RestDoes(c: Core, m: Move)
    requires Allowed(c, m) && !Local(m) && SweepOf(m).None?
    ensures var d := Do(c, m);
            && d.log == c.log + Facts(c, m)
            && d.threads == (if m.Add? then c.threads + [m.thread] else if m.Remove? then Removed(c.threads, m.i) else c.threads)
            && d.nextThread == (if m.Add? then c.nextThread + 1 else c.nextThread)
            && c.nextPending <= d.nextPending && c.now <= d.now
            && d.allowWrites == (if m.Settings? then true else c.allowWrites)
            && (!m.Add? && !m.Remove? ==> d.contexts == c.contexts && d.pruner == c.pruner)
            && (!m.Begin? && !m.Attach? && !m.Remove? ==> d.slots == c.slots)
            && (!m.Land? ==> d.flights == c.flights) && d.flights.Keys <= c.flights.Keys
  {
    hide Kubyl, AllowOption, KnownTitle, Transcripts.Keeps, Transcripts.UniqueTools;
    if m.FinishJob? {
      JobDoes(c, m.job, m.ok);
    } else {
      assert c.log + [] == c.log;
    }
  }

  lemma JobDoes(c: Core, job: nat, ok: bool)
    requires Allowed(c, FinishJob(job, ok))
    ensures var m := FinishJob(job, ok); Do(c, m) == c.(log := c.log + Facts(c, m), jobs := Do(c, m).jobs)
  {
  }

  // ----- Facts that only settle something -----

  ghost predicate AllSettle(fs: seq<Fact>) { forall i :: 0 <= i < |fs| ==> Settles(fs[i]) }

  lemma {:induction false} CancelSettles(ps: seq<Pending>)
    ensures AllSettle(CancelAll(ps))
  {
    if ps != [] {
      CancelSettles(ps[1..]);
    }
  }

  lemma {:induction false} SiftSettles(ps: seq<Pending>, sieve: Sieve)
    ensures AllSettle(SiftFacts(ps, sieve))
  {
    if ps != [] {
      SiftSettles(ps[..|ps| - 1], sieve);
    }
  }

  lemma {:induction false} SweepSettles(ts: seq<Thread>, s: Sweep)
    ensures AllSettle(SweepFacts(ts, s))
  {
    if ts != [] {
      var ps := ts[|ts| - 1].pending;
      SweepSettles(ts[..|ts| - 1], s);
      CancelSettles(ps);
      SiftSettles(ps, NoChanges);
      match s {
        case PruneChanges(closed) => SiftSettles(ps, LiveChanges(closed));
        case UrlDone(_, e) => SiftSettles(ps, NotUrl(e));
        case _ =>
      }
    }
  }

  /** The moves that add more than settlements to the history. */
  predicate Telling(m: Move) {
    || (m.Add? && m.first.Some?) || m.Enqueue? || m.Withdraw? || m.Hand? || m.HandFails? || m.Lose?
    || m.RunGranted? || m.TakeAnswer?
  }

  lemma QuietFacts(c: Core, m: Move)
    requires Allowed(c, m) && !Telling(m)
    ensures AllSettle(Facts(c, m))
  {
    hide SweepFacts, CancelAll, SiftFacts;
    if SweepOf(m).Some? {
      SweepSettles(c.threads, SweepOf(m).value);
    } else if m.Rest? {
      CancelSettles(c.threads[m.i].pending);
    } else if m.Writes? {
      SiftSettles(c.threads[m.i].pending, NoChanges);
    }
  }
}
