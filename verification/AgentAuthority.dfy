/** Nothing runs and nothing is approved without an answer of the user to that very card. */
module AgentAuthority {
  import opened Wrappers
  import opened AgentTypes
  import opened AgentSteps
  import opened AgentMoves
  import opened AgentRuns
  import opened AgentEffects
  import opened AgentSafety
  import AgentChoices
  import AgentWires
  import Policy
  import Text
  import Transcripts

  // ----- What stands behind a fact -----

  /** The card shows the environment without its secrets. */
  ghost predicate ShowsEnv(shown: seq<ShownVar>, env: seq<EnvVar>) {
    |shown| == |env| && forall i :: 0 <= i < |env| ==> shown[i].name == env[i].name && shown[i].value == env[i].shown
  }

  /** The user allowed the command's own card, which showed this very command line, and the
      environment without its secrets. */
  ghost predicate AllowedCommand(f: Fact, ran: Fact)
    requires ran.Ran?
  {
    && f.Chosen? && f.thread == ran.thread && f.item.id == ran.card && (f.answer.Allow? || f.answer.Choose?)
    && f.item.kind.Command? && f.item.launch == Some(ran.launch) && f.item.kind.warned == ran.warned && f.item.responder == Some(ran.token)
    && f.item.kind.line == Policy.Line(ran.launch.command, ran.launch.args) && ShowsEnv(f.item.kind.env, ran.launch.env)
  }

  /** A grant in the same thread, at most 30 s old, is for the same words as the command line, or as what
      a shell wrapper runs; the command has no environment and no warning. */
  ghost predicate CoveredCommand(f: Fact, ran: Fact)
    requires ran.Ran?
  {
    && f.Granted? && f.thread == ran.thread && f.card == ran.card && f.at <= ran.at <= f.at + 30_000_000_000
    && !ran.warned && ran.launch.env == []
    && f.command.Some? && Text.SplitWhitespace(f.command.value) != []
    && Policy.SaysSame(Text.SplitWhitespace(f.command.value), ran.launch.command, ran.launch.args)
  }

  /** The user allowed the permission prompt the grant came from, which was about a command: by an allow
      when an option allows, or by choosing an option that does. */
  ghost predicate AllowedPermission(f: Fact, granted: Fact)
    requires granted.Granted?
  {
    && f.Chosen? && f.thread == granted.thread && f.item.id == granted.card
    && f.item.kind.Permission? && f.item.kind.execute && f.item.kind.command == granted.command
    && exists k :: 0 <= k < |f.item.kind.choices| && f.item.kind.choices[k].allow &&
         (f.answer.Allow? || (f.answer.Choose? && f.item.kind.choices[k].id == f.answer.option
                              && forall j :: 0 <= j < k ==> f.item.kind.choices[j].id != f.answer.option))
  }

  /** The user allowed the change's own card while changes were switched on. */
  predicate AllowedChange(f: Fact, decided: Fact)
    requires decided.Decided?
  {
    && f.Chosen? && f.item.kind.Change? && f.item.approval == Some(decided.approval)
    && (f.answer.Allow? || f.answer.Choose?) && f.writes
  }

  ghost predicate Backs(f: Fact, g: Fact) {
    match g
    case Ran(_, _, _, byGrant, _, _, _) => if byGrant then CoveredCommand(f, g) else AllowedCommand(f, g)
    case Granted(_, _, _, _) => AllowedPermission(f, g)
    case Decided(_, _) => AllowedChange(f, g)
    case _ => false
  }

  predicate Needs(f: Fact) { f.Ran? || f.Granted? || (f.Decided? && f.decision.Approved?) }

  ghost predicate Among(log: seq<Fact>, n: nat, g: Fact)
    requires n <= |log|
  {
    exists k :: 0 <= k < n && Backs(log[k], g)
  }

  /** Everything that needs it has something behind it, earlier in the history. */
  ghost predicate Backed(log: seq<Fact>) {
    forall j :: 0 <= j < |log| && Needs(log[j]) ==> Among(log, j, log[j])
  }

  lemma BackedAppend(log: seq<Fact>, more: seq<Fact>)
    requires Backed(log)
    requires forall j :: 0 <= j < |more| && Needs(more[j]) ==> Among(log, |log|, more[j]) || Among(more, j, more[j])
    ensures Backed(log + more)
  {
    hide Backs, Needs;
    var all := log + more;
    forall j | 0 <= j < |all| && Needs(all[j]) ensures Among(all, j, all[j]) {
      if j < |log| {
        var k :| 0 <= k < j && Backs(log[k], log[j]);
        assert Backs(all[k], all[j]);
      } else if Among(log, |log|, all[j]) {
        var k :| 0 <= k < |log| && Backs(log[k], all[j]);
        assert Backs(all[k], all[j]);
      } else {
        var i := j - |log|;
        assert all[j] == more[i];
        var k :| 0 <= k < i && Backs(more[k], more[i]);
        assert Backs(all[|log| + k], all[j]);
      }
    }
  }

  // ----- What holds of a thread -----

  /** The grant was given on this thread, and is in the history. */
  ghost predicate GrantKnown(log: seq<Fact>, now: nat, t: Thread) {
    t.grant.Some? ==>
      t.grant.value.at <= now && Granted(t.id, t.grant.value.card, t.grant.value.command, t.grant.value.at) in log
  }

  /** A command card shows the command it runs; a change card holds the way back, no request. */
  predicate Honest(p: Pending) {
    && (p.kind.Change? <==> p.approval.Some?) && (p.kind.Change? <==> p.responder.None?)
    && (p.kind.Command? <==> p.launch.Some?)
    && (p.kind.Command? ==> p.kind.line == Policy.Line(p.launch.value.command, p.launch.value.args) && p.kind.env == ShownEnv(p.launch.value.env))
  }

  /** Changes wait only where they are switched on, and nobody can switch them on against the settings. */
  ghost predicate Gated(t: Thread, allowWrites: bool) {
    && (forall p :: p in t.pending ==> Honest(p) && (p.kind.Change? ==> t.writes))
    && (t.writes ==> allowWrites)
  }

  ghost predicate Lawful(c: Core) {
    && Backed(c.log)
    && (forall i :: 0 <= i < |c.threads| ==> Gated(c.threads[i], c.allowWrites) && GrantKnown(c.log, c.now, c.threads[i]))
  }

  // ----- Local moves -----

  lemma LocalGated(c: Core, m: Move)
    requires Allowed(c, m) && Local(m) && Gated(c.threads[m.i], c.allowWrites)
    ensures Gated(After(c, m), c.allowWrites)
  {
    hide Honest;
    if m.PushCard? {
      PushGated(c, m);
    } else {
      AgentWires.LocalFewer(c, m);
      SameWrites(c, m);
    }
  }

  lemma PushGated(c: Core, m: Move)
    requires Allowed(c, m) && m.PushCard? && Gated(c.threads[m.i], c.allowWrites)
    ensures Gated(After(c, m), c.allowWrites)
  {
    hide Policy.Line;
    var card := NewCard(c, m.kind, m.responder, m.launch, m.approval);
    assert Honest(card) && (card.kind.Change? ==> c.threads[m.i].writes);
    forall p | p in After(c, m).pending ensures Honest(p) && (p.kind.Change? ==> c.threads[m.i].writes) {
      assert p in c.threads[m.i].pending || p == card;
    }
  }

  lemma SameWrites(c: Core, m: Move)
    requires Allowed(c, m) && Local(m)
    ensures After(c, m).writes == c.threads[m.i].writes || (After(c, m).writes && c.allowWrites)
            || (!After(c, m).writes && forall p :: p in After(c, m).pending ==> !p.kind.Change?)
  {
    hide Transcripts.Settled, TurnNotice, CoveredBy, Grants, Kept;
    if m.Writes? {
      AgentWires.KeptAreCards(c.threads[m.i].pending, NoChanges);
    }
  }

  lemma LocalGrant(c: Core, m: Move)
    requires Allowed(c, m) && Local(m) && GrantKnown(c.log, c.now, c.threads[m.i])
    ensures GrantKnown(c.log + Facts(c, m), c.now, After(c, m))
  {
    hide Facts, CoveredBy, Grants, Kept, Transcripts.Settled, TurnNotice, ChoiceOf;
    if m.TakeAnswer? && Grants(c.threads[m.i].pending[m.j], m.answer) {
      GrantIsTold(c, m);
    } else {
      assert After(c, m).grant == c.threads[m.i].grant || After(c, m).grant.None?;
    }
  }

  lemma GrantIsTold(c: Core, m: Move)
    requires Allowed(c, m) && m.TakeAnswer? && Grants(c.threads[m.i].pending[m.j], m.answer)
    ensures var t, item := c.threads[m.i], c.threads[m.i].pending[m.j];
            Granted(t.id, item.id, item.kind.command, c.now) in Facts(c, m)
  {
    hide ChoiceOf;
    var t := c.threads[m.i];
    var item := t.pending[m.j];
    var told := Granted(t.id, item.id, item.kind.command, c.now);
    var own := ItemFacts(c, t, item, item.responder.value, m.answer);
    assert own[0] == told;
    assert AnswerFacts(c, t, item, m.answer) == ForgetFacts(item) + own;
  }

  // ----- What moves tell -----

  lemma {:induction false} WithdrawNeeds(id: nat, ps: seq<Prompt>)
    ensures forall j :: 0 <= j < |WithdrawAll(id, ps)| ==> !Needs(WithdrawAll(id, ps)[j])
  {
    if ps != [] {
      WithdrawNeeds(id, ps[1..]);
    }
  }

  lemma OtherNeeds(c: Core, m: Move)
    requires Allowed(c, m) && !m.TakeAnswer? && !m.RunGranted?
    ensures forall j :: 0 <= j < |Facts(c, m)| ==> !Needs(Facts(c, m)[j])
  {
    hide CancelAll, SiftFacts, SweepFacts, WithdrawAll;
    if !Telling(m) {
      QuietFacts(c, m);
    } else if m.Withdraw? {
      WithdrawNeeds(c.threads[m.i].id, c.threads[m.i].queued);
      CancelSettles(c.threads[m.i].pending);
    } else if m.HandFails? {
      CancelSettles(c.threads[m.i].pending);
    }
  }

  lemma GrantedRunBacked(c: Core, m: Move)
    requires Allowed(c, m) && m.RunGranted? && GrantKnown(c.log, c.now, c.threads[m.i])
    ensures forall j :: 0 <= j < |Facts(c, m)| && Needs(Facts(c, m)[j]) ==> Among(c.log, |c.log|, Facts(c, m)[j])
  {
    hide Policy.Covers, Policy.Lines, Policy.SaysSame, Text.SplitWhitespace, SafeEnv;
    var t, r := c.threads[m.i], m.request;
    Granting(t, r, c.now);
    var g := t.grant.value;
    Policy.CoversCommandExactly(g.at, g.command, r.command, r.args, c.now);
    var k :| 0 <= k < |c.log| && c.log[k] == Granted(t.id, g.card, g.command, g.at);
    if Connection(c, t.agent).Some? {
      assert Backs(c.log[k], Facts(c, m)[0]);
    }
  }

  lemma AnswerBacked(c: Core, m: Move)
    requires Allowed(c, m) && m.TakeAnswer? && Gated(c.threads[m.i], c.allowWrites)
    ensures forall j :: 0 <= j < |Facts(c, m)| && Needs(Facts(c, m)[j]) ==> Among(Facts(c, m), j, Facts(c, m)[j])
  {
    hide Honest, Backs, AnswerFacts;
    var t := c.threads[m.i];
    var item := t.pending[m.j];
    var fs, more := Facts(c, m), AnswerFacts(c, t, item, m.answer);
    var chosen := Chosen(t.id, item, m.answer, c.allowWrites && t.writes);
    assert fs == [chosen] + more;
    assert item in t.pending;
    ChosenBacks(c, t, item, m.answer);
    forall j | 0 <= j < |fs| && Needs(fs[j]) ensures Among(fs, j, fs[j]) {
      assert j > 0 && fs[j] == more[j - 1];
      assert Backs(fs[0], fs[j]);
    }
  }

  lemma ChosenBacks(c: Core, t: Thread, item: Pending, answer: Answer)
    requires Honest(item) && (item.kind.Change? ==> t.writes && c.allowWrites)
    ensures var fs := AnswerFacts(c, t, item, answer);
            forall j :: 0 <= j < |fs| && Needs(fs[j]) ==> Backs(Chosen(t.id, item, answer, c.allowWrites && t.writes), fs[j])
  {
    hide ChoiceOf, Policy.Line, Policy.Covers, ItemFacts;
    if !item.kind.Change? && item.responder.Some? {
      ItemBacks(c, t, item, item.responder.value, answer);
    }
  }

  lemma ItemBacks(c: Core, t: Thread, item: Pending, token: Token, answer: Answer)
    requires Honest(item) && !item.kind.Change? && item.responder == Some(token)
    ensures var fs := ItemFacts(c, t, item, token, answer);
            forall j :: 0 <= j < |fs| && Needs(fs[j]) ==> Backs(Chosen(t.id, item, answer, c.allowWrites && t.writes), fs[j])
  {
    hide ChoiceOf, Policy.Line, Policy.Covers, Policy.Lines;
    var fs := ItemFacts(c, t, item, token, answer);
    assert |fs| <= 2;
    if item.kind.Command? && |fs| == 1 && fs[0].Ran? {
      assert AllowedCommand(Chosen(t.id, item, answer, c.allowWrites && t.writes), fs[0]);
    } else if item.kind.Permission? && Grants(item, answer) {
      GrantsPermission(t, item, answer, c.allowWrites && t.writes, fs[0]);
    }
  }

  /** An allowed permission prompt, in plain words. */
  lemma GrantsPermission(t: Thread, item: Pending, answer: Answer, writes: bool, granted: Fact)
    requires Grants(item, answer) && granted.Granted? && granted.thread == t.id && granted.card == item.id
    requires granted.command == item.kind.command
    ensures AllowedPermission(Chosen(t.id, item, answer, writes), granted)
  {
    hide ChoiceOf;
    AgentChoices.ChoiceExactly(item.kind.choices, answer);
    var k: nat :| AgentChoices.Picks(item.kind.choices, answer, k) && item.kind.choices[k] == ChoiceOf(item.kind.choices, answer).value;
    assert item.kind.choices[k].allow;
  }

  lemma FactsBacked(c: Core, m: Move)
    requires Lawful(c) && Allowed(c, m)
    ensures Backed(c.log + Facts(c, m))
  {
    hide Facts, Needs, Among, Gated, GrantKnown, Backed;
    if m.TakeAnswer? {
      AnswerBacked(c, m);
    } else if m.RunGranted? {
      GrantedRunBacked(c, m);
    } else {
      OtherNeeds(c, m);
    }
    BackedAppend(c.log, Facts(c, m));
  }

  // ----- Every move -----

  lemma GrantStays(log: seq<Fact>, more: seq<Fact>, now: nat, later: nat, t: Thread, u: Thread)
    requires GrantKnown(log, now, t) && now <= later && u.grant == t.grant && u.id == t.id
    ensures GrantKnown(log + more, later, u)
  {
  }

  lemma LocalKept(c: Core, m: Move)
    requires Lawful(c) && Allowed(c, m) && Local(m)
    ensures Lawful(Do(c, m))
  {
    hide Do, After, Facts, Gated, GrantKnown, Backed;
    LocalDoes(c, m);
    FactsBacked(c, m);
    LocalGated(c, m);
    LocalGrant(c, m);
    var d := Do(c, m);
    forall i | 0 <= i < |d.threads| ensures Gated(d.threads[i], d.allowWrites) && GrantKnown(d.log, d.now, d.threads[i]) {
      if i != m.i {
        GrantStays(c.log, Facts(c, m), c.now, d.now, c.threads[i], d.threads[i]);
      }
    }
  }

  /** After a sweep the thread may still propose changes only if the settings still say so. */
  lemma SweptGated(t: Thread, s: Sweep, allowWrites: bool)
    requires Gated(t, allowWrites)
    ensures Gated(Swept(t, s), allowWrites && !s.RevokeWrites?)
    ensures Swept(t, s).grant == t.grant
  {
    hide Honest, Kept, Transcripts.Settled;
    AgentWires.SweptFewer(t, s);
    if s.RevokeWrites? {
      AgentWires.KeptAreCards(t.pending, NoChanges);
    }
  }

  lemma SweepKept(c: Core, m: Move)
    requires Lawful(c) && Allowed(c, m) && SweepOf(m).Some?
    ensures Lawful(Do(c, m))
  {
    hide Do, Facts, Swept, SweepThreads, Gated, GrantKnown, Backed;
    var d, s := Do(c, m), SweepOf(m).value;
    SweepDoes(c, m);
    SweepAt(c.threads, s);
    FactsBacked(c, m);
    forall i | 0 <= i < |d.threads| ensures Gated(d.threads[i], d.allowWrites) && GrantKnown(d.log, d.now, d.threads[i]) {
      SweptGated(c.threads[i], s, c.allowWrites);
      SameSwept(c.threads[i], s);
      GrantStays(c.log, Facts(c, m), c.now, d.now, c.threads[i], d.threads[i]);
      assert m.Settings? <==> s.RevokeWrites?;
    }
  }

  lemma OtherKept(c: Core, m: Move)
    requires Lawful(c) && Allowed(c, m) && !Local(m) && SweepOf(m).None?
    ensures Lawful(Do(c, m))
  {
    hide Do, Facts, GrantKnown, Backed, Gated;
    var d := Do(c, m);
    RestDoes(c, m);
    FactsBacked(c, m);
    forall i | 0 <= i < |d.threads| ensures Gated(d.threads[i], d.allowWrites) && GrantKnown(d.log, d.now, d.threads[i]) {
      if m.Add? && i == |c.threads| {
        NewLawful(m.thread, d);
      } else {
        var k := if m.Remove? && i >= m.i then i + 1 else i;
        assert d.threads[i] == c.threads[k];
        GrantStays(c.log, Facts(c, m), c.now, d.now, c.threads[k], d.threads[i]);
        StillGated(c.threads[k], c.allowWrites, d.allowWrites);
      }
    }
  }

  lemma StillGated(t: Thread, allowed: bool, now: bool)
    requires Gated(t, allowed) && (allowed ==> now)
    ensures Gated(t, now)
  {
  }

  lemma NewLawful(t: Thread, d: Core)
    requires t.pending == [] && !t.writes && t.grant.None?
    ensures Gated(t, d.allowWrites) && GrantKnown(d.log, d.now, t)
  {
  }

  lemma LawKept(c: Core, m: Move)
    requires Lawful(c) && Allowed(c, m)
    ensures Lawful(Do(c, m))
  {
    hide Do, Lawful;
    if Local(m) {
      LocalKept(c, m);
    } else if SweepOf(m).Some? {
      SweepKept(c, m);
    } else {
      OtherKept(c, m);
    }
  }

  // ----- Over any run -----

  lemma RunLawful(configured: set<string>, allowWrites: bool, events: seq<Event>)
    ensures Lawful(Run(Fresh(configured, allowWrites), events))
  {
    hide Run, Do, Step, Backed;
    var start := Fresh(configured, allowWrites);
    AnyRun(start, events);
    assert Backed(start.log) by { NothingToBack(); }
    forall c, m | Ids(c) && Lawful(c) && Good(c, m, NoCare) ensures Lawful(Do(c, m)) {
      LawKept(c, m);
    }
    RunKeeps(Lawful, start, events, NoCare);
  }

  lemma NothingToBack()
    ensures Backed([])
  {
  }

  /** After any run: every command that ran stands on an earlier answer of the user. Either the user
      allowed its own card, which showed exactly that command line; or the user allowed a permission
      prompt about a command in the same thread, at most 30 s before, and the command has exactly its
      words (as given or inside a shell wrapper), with no environment and no warning. */
  lemma EveryCommandStandsOnAnAnswer(configured: set<string>, allowWrites: bool, events: seq<Event>, j: nat)
    requires var c := Run(Fresh(configured, allowWrites), events); j < |c.log| && c.log[j].Ran?
    ensures var log := Run(Fresh(configured, allowWrites), events).log;
            if log[j].byGrant
            then exists l, k :: 0 <= l < k < j && CoveredCommand(log[k], log[j]) && AllowedPermission(log[l], log[k])
            else exists k :: 0 <= k < j && AllowedCommand(log[k], log[j])
  {
    hide Run, CoveredCommand, AllowedCommand, AllowedPermission;
    var log := Run(Fresh(configured, allowWrites), events).log;
    RunLawful(configured, allowWrites, events);
    assert Needs(log[j]);
    var k :| 0 <= k < j && Backs(log[k], log[j]);
    if log[j].byGrant {
      assert log[k].Granted? by { IsGrant(log[k], log[j]); }
      assert Needs(log[k]);
      var l :| 0 <= l < k && Backs(log[l], log[k]);
      assert AllowedPermission(log[l], log[k]);
    }
  }

  lemma IsGrant(f: Fact, ran: Fact)
    requires ran.Ran? && CoveredCommand(f, ran)
    ensures f.Granted?
  {
  }

  /** After any run: a change was approved only by an allow on its own card, given while changes were
      switched on for the thread and in the settings. */
  lemma EveryApprovalIsAnAnswer(configured: set<string>, allowWrites: bool, events: seq<Event>, j: nat)
    requires var c := Run(Fresh(configured, allowWrites), events);
             j < |c.log| && c.log[j].Decided? && c.log[j].decision.Approved?
    ensures var log := Run(Fresh(configured, allowWrites), events).log;
            exists k :: 0 <= k < j && AllowedChange(log[k], log[j])
  {
    hide Run, AllowedChange;
    var log := Run(Fresh(configured, allowWrites), events).log;
    RunLawful(configured, allowWrites, events);
    assert Needs(log[j]);
    var k :| 0 <= k < j && Backs(log[k], log[j]);
  }

  /** After any run: a change waits only on a thread whose switch is on, and a switch is on only
      while the settings allow changes. */
  lemma WriteGate(configured: set<string>, allowWrites: bool, events: seq<Event>)
    ensures var c := Run(Fresh(configured, allowWrites), events);
            forall i :: 0 <= i < |c.threads| ==>
              && (c.threads[i].writes ==> c.allowWrites)
              && (forall p :: p in c.threads[i].pending && p.kind.Change? ==> c.threads[i].writes)
  {
    hide Run;
    RunLawful(configured, allowWrites, events);
  }
}
