/** Every answer of the user has its effect. */
module AgentTold {
  import opened Wrappers
  import opened AgentTypes
  import opened AgentSteps
  import opened AgentMoves
  import opened AgentRuns
  import opened AgentEffects
  import opened AgentSafety
  import opened AgentChoices
  import AgentAuthority
  import AgentReasons
  import Transcripts

  /** The fact is what the answer to the card must bring at once. An allowed file is told when it was
      read or written. */
  ghost predicate Tells(f: Fact, g: Fact)
    requires f.Chosen?
  {
    var item, answer := f.item, f.answer;
    match item.kind
    case Change(_) => item.approval.Some? && g == Decided(item.approval.value, if Permits(answer) then Approved else Rejected)
    case Permission(_, _, _, _, choices) =>
      && item.responder.Some? && g.Replied? && g.token == item.responder.value
      && (if exists k: nat :: Picks(choices, answer, k)
          then exists k: nat :: Picks(choices, answer, k) && g.reply == Selected(choices[k].id)
          else g.reply == PermissionCancelled)
    case Command(_, _, _, _) =>
      && item.responder.Some?
      && if Permits(answer)
         then g == Replied(item.responder.value, AgentStopped)
              || (g.Ran? && g.token == item.responder.value && Some(g.launch) == item.launch && g.card == item.id && g.thread == f.thread && !g.byGrant)
         else g == Replied(item.responder.value, UserDeclined)
    case Read(_) => Permits(answer) || (item.responder.Some? && g == Replied(item.responder.value, UserDeclined))
    case Write(_, _, _) => Permits(answer) || (item.responder.Some? && g == Replied(item.responder.value, UserDeclined))
    case Form(_) =>
      item.responder.Some? && g == Replied(item.responder.value, if answer.Submit? then Accepted(answer.content) else Declined)
    case OpenUrl(_, _, _) =>
      item.responder.Some? && g == Replied(item.responder.value, if Permits(answer) then Accepted("{}") else Declined)
  }

  /** The answer lets a command run without being asked about again: it picks an option that allows, of a
      prompt about a command. */
  ghost predicate Lets(f: Fact)
    requires f.Chosen?
  {
    && f.item.kind.Permission? && f.item.kind.execute
    && exists k: nat :: Picks(f.item.kind.choices, f.answer, k) && f.item.kind.choices[k].allow
  }

  ghost predicate Gives(f: Fact, g: Fact)
    requires f.Chosen? && f.item.kind.Permission?
  {
    g.Granted? && g.thread == f.thread && g.card == f.item.id && g.command == f.item.kind.command
  }

  predicate Waits(f: Fact)
    requires f.Chosen?
  {
    AgentReasons.IsFile(f.item.kind) && Permits(f.answer)
  }

  ghost predicate ToldIn(log: seq<Fact>, k: nat)
    requires k < |log| && log[k].Chosen?
  {
    && (!Waits(log[k]) ==> exists j :: k < j < |log| && Tells(log[k], log[j]))
    && (log[k].item.kind.Permission? ==>
          (Lets(log[k]) ==> exists j :: k < j < |log| && Gives(log[k], log[j])))
  }

  ghost predicate Told(log: seq<Fact>) {
    forall k :: 0 <= k < |log| && log[k].Chosen? ==> ToldIn(log, k)
  }

  // ----- One answer -----

  lemma PermissionTells(c: Core, t: Thread, item: Pending, token: Token, answer: Answer, writes: bool)
    requires item.kind.Permission? && item.responder == Some(token) && item.approval.None?
    ensures var f, fs := Chosen(t.id, item, answer, writes), AnswerFacts(c, t, item, answer);
            && (exists j :: 0 <= j < |fs| && Tells(f, fs[j]))
            && (Lets(f) ==> |fs| == 2 && Gives(f, fs[0]))
  {
    hide ChoiceOf;
    var f, fs, choices := Chosen(t.id, item, answer, writes), AnswerFacts(c, t, item, answer), item.kind.choices;
    ChoiceExactly(choices, answer);
    match ChoiceOf(choices, answer)
    case None => assert Tells(f, fs[0]);
    case Some(choice) =>
      var k: nat :| Picks(choices, answer, k) && choices[k] == choice;
      forall l: nat | Picks(choices, answer, l) ensures choices[l] == choice {
        OnePick(choices, answer, l);
      }
      assert Tells(f, fs[|fs| - 1]);
  }

  lemma OtherTells(c: Core, t: Thread, item: Pending, answer: Answer, writes: bool)
    requires AgentAuthority.Honest(item) && !item.kind.Permission?
    ensures var f, fs := Chosen(t.id, item, answer, writes), AnswerFacts(c, t, item, answer);
            !Waits(f) ==> exists j :: 0 <= j < |fs| && Tells(f, fs[j])
  {
    hide ChoiceOf;
    var f, fs := Chosen(t.id, item, answer, writes), AnswerFacts(c, t, item, answer);
    if !Waits(f) {
      assert Tells(f, fs[0]);
    }
  }

  lemma AnswerToldIn(c: Core, t: Thread, item: Pending, answer: Answer, log: seq<Fact>)
    requires AgentAuthority.Honest(item)
    ensures var f := Chosen(t.id, item, answer, c.allowWrites && t.writes);
            ToldIn(log + ([f] + AnswerFacts(c, t, item, answer)), |log|)
  {
    hide AnswerFacts, Tells, Lets;
    var f, fs := Chosen(t.id, item, answer, c.allowWrites && t.writes), AnswerFacts(c, t, item, answer);
    var all := log + ([f] + fs);
    assert all[|log|] == f && forall j :: 0 <= j < |fs| ==> all[|log| + 1 + j] == fs[j];
    if item.kind.Permission? {
      PermissionTells(c, t, item, item.responder.value, answer, c.allowWrites && t.writes);
      var j :| 0 <= j < |fs| && Tells(f, fs[j]);
      assert Tells(f, all[|log| + 1 + j]);
      if Lets(f) { assert Gives(f, all[|log| + 1]); }
    } else {
      OtherTells(c, t, item, answer, c.allowWrites && t.writes);
      if !Waits(f) {
        var j :| 0 <= j < |fs| && Tells(f, fs[j]);
        assert Tells(f, all[|log| + 1 + j]);
      }
    }
  }

  // ----- Every move -----

  lemma Stays(log: seq<Fact>, more: seq<Fact>, k: nat)
    requires k < |log| && log[k].Chosen? && ToldIn(log, k)
    ensures (log + more)[k] == log[k] && ToldIn(log + more, k)
  {
    hide Tells, Lets, Gives;
    var all := log + more;
    if !Waits(log[k]) {
      var j :| k < j < |log| && Tells(log[k], log[j]);
      assert all[j] == log[j];
    }
    if log[k].item.kind.Permission? && Lets(log[k]) {
      var j :| k < j < |log| && Gives(log[k], log[j]);
      assert all[j] == log[j];
    }
  }

  lemma NoneChosen(c: Core, m: Move)
    requires Allowed(c, m) && !m.TakeAnswer?
    ensures forall j :: 0 <= j < |Facts(c, m)| ==> !Facts(c, m)[j].Chosen?
  {
    hide CancelAll, SiftFacts, SweepFacts, WithdrawAll, ShownEnv, CoveredBy, LaunchOf;
    if !Telling(m) {
      QuietFacts(c, m);
    } else if m.Withdraw? {
      NoChoice(c.threads[m.i].id, c.threads[m.i].queued);
      CancelSettles(c.threads[m.i].pending);
    } else if m.HandFails? {
      CancelSettles(c.threads[m.i].pending);
    }
  }

  lemma {:induction false} NoChoice(id: nat, ps: seq<Prompt>)
    ensures forall j :: 0 <= j < |WithdrawAll(id, ps)| ==> !WithdrawAll(id, ps)[j].Chosen?
  {
    if ps != [] {
      NoChoice(id, ps[1..]);
    }
  }

  lemma AnswerKept(c: Core, m: Move)
    requires AgentAuthority.Lawful(c) && Told(c.log) && Allowed(c, m) && m.TakeAnswer?
    ensures Told(c.log + Facts(c, m))
  {
    hide ToldIn, AnswerFacts, AgentAuthority.Honest, AgentAuthority.Backed;
    var t := c.threads[m.i];
    var item := t.pending[m.j];
    assert AgentAuthority.Gated(t, c.allowWrites) && item in t.pending;
    var f, more := Chosen(t.id, item, m.answer, c.allowWrites && t.writes), AnswerFacts(c, t, item, m.answer);
    assert Facts(c, m) == [f] + more;
    AnswerToldIn(c, t, item, m.answer, c.log);
    NoMoreChosen(c, t, item, m.answer);
    var all := c.log + ([f] + more);
    assert forall j :: 0 <= j < |more| ==> all[|c.log| + 1 + j] == more[j];
    assert forall j :: |c.log| < j < |all| ==> !all[j].Chosen?;
    forall k | 0 <= k < |all| && all[k].Chosen? ensures ToldIn(all, k) {
      if k < |c.log| {
        Stays(c.log, [f] + more, k);
      }
    }
  }

  lemma NoMoreChosen(c: Core, t: Thread, item: Pending, answer: Answer)
    ensures forall j :: 0 <= j < |AnswerFacts(c, t, item, answer)| ==> !AnswerFacts(c, t, item, answer)[j].Chosen?
  {
    hide ChoiceOf, Grants;
  }

  lemma MoveKept(c: Core, m: Move)
    requires AgentAuthority.Lawful(c) && Told(c.log) && Allowed(c, m)
    ensures AgentAuthority.Lawful(Do(c, m)) && Told(Do(c, m).log)
  {
    hide Do, Facts, ToldIn, AgentAuthority.Lawful;
    AgentAuthority.LawKept(c, m);
    AgentReasons.LogOf(c, m);
    if m.TakeAnswer? {
      AnswerKept(c, m);
    } else {
      NoneChosen(c, m);
      var all := c.log + Facts(c, m);
      assert forall j :: |c.log| <= j < |all| ==> all[j] == Facts(c, m)[j - |c.log|];
      forall k | 0 <= k < |all| && all[k].Chosen? ensures ToldIn(all, k) {
        Stays(c.log, Facts(c, m), k);
      }
    }
  }

  ghost predicate Upright(c: Core) { AgentAuthority.Lawful(c) && Told(c.log) }

  /** After any run, every answer of the user was told at once: a permission prompt with the first option
      the answer asks for, or as cancelled when there is none, and with a grant when that option allows
      a command; a command by running just that one, or because its agent is gone; a change as approved
      or rejected; a form or link as accepted or declined; a denied command or file as declined. */
  lemma EveryAnswerIsTold(configured: set<string>, allowWrites: bool, events: seq<Event>, k: nat)
    requires var c := Run(Fresh(configured, allowWrites), events); k < |c.log| && c.log[k].Chosen?
    ensures var log := Run(Fresh(configured, allowWrites), events).log;
            && (!Waits(log[k]) ==> exists j :: k < j < |log| && Tells(log[k], log[j]))
            && (log[k].item.kind.Permission? && Lets(log[k]) ==> exists j :: k < j < |log| && Gives(log[k], log[j]))
  {
    hide Run, Do, Step, Allowed, Tells, Lets, Gives;
    var start := Fresh(configured, allowWrites);
    AnyRun(start, events);
    StartLawful(configured, allowWrites);
    forall c, m | Ids(c) && Upright(c) && Good(c, m, NoCare) ensures Upright(Do(c, m)) {
      MoveKept(c, m);
    }
    RunKeeps(Upright, start, events, NoCare);
    assert ToldIn(Run(start, events).log, k);
  }

  lemma StartLawful(configured: set<string>, allowWrites: bool)
    ensures Upright(Fresh(configured, allowWrites))
  {
    AgentAuthority.NothingToBack();
  }
}
