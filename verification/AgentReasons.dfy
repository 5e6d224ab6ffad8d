/** What an agent is told has its reason, and every answer of the user is told. */
module AgentReasons {
  import opened Wrappers
  import opened AgentTypes
  import opened AgentSteps
  import opened AgentMoves
  import opened AgentRuns
  import opened AgentEffects
  import opened AgentSafety
  import opened AgentChoices
  import AgentAuthority
  import Handing
  import Policy
  import Transcripts

  // ----- Reasons -----

  /** The user answered the card of this request. */
  predicate Answered(f: Fact, token: Token) { f.Chosen? && f.item.responder == Some(token) }

  predicate IsFile(kind: PendingKind) { kind.Read? || kind.Write? }

  /** The user let the file of this request be read or written. */
  predicate FileAllowed(f: Fact, token: Token) { Answered(f, token) && IsFile(f.item.kind) && Permits(f.answer) }

  /** Replies that only a decision can bring. */
  predicate Decides(reply: Reply) {
    || reply.Selected? || reply.Accepted? || reply.Declined? || reply.UserDeclined?
    || reply.TerminalCreated? || reply.FileDone? || reply.WorkFailed?
  }

  /** Why the request was told this: what must have happened before. */
  ghost predicate ReasonFor(f: Fact, token: Token, reply: Reply) {
    match reply
    case Selected(id) =>
      || (Answered(f, token) && f.item.kind.Permission?
          && exists k: nat :: Picks(f.item.kind.choices, f.answer, k) && f.item.kind.choices[k].id == id)
      || (f.LetThrough? && f.token == token && ForOwnTool(f.ask, f.known) && LastingFirst(f.ask.options, id))
    case Accepted(content) =>
      || (Answered(f, token) && f.item.kind.Form? && f.answer == Submit(content))
      || (Answered(f, token) && f.item.kind.OpenUrl? && Permits(f.answer) && content == "{}")
      || (f.PageDone? && f.item.responder == Some(token) && f.item.kind.OpenUrl? && content == "{}")
    case Declined =>
      Answered(f, token) && ((f.item.kind.Form? && !f.answer.Submit?) || (f.item.kind.OpenUrl? && !Permits(f.answer)))
    case UserDeclined => Answered(f, token) && (f.item.kind.Command? || IsFile(f.item.kind)) && !Permits(f.answer)
    case TerminalCreated => f.Ran? && f.token == token
    case FileDone => FileAllowed(f, token)
    case WorkFailed => (f.Ran? && f.token == token) || FileAllowed(f, token)
    case _ => false
  }

  predicate Needs(f: Fact) { f.Replied? && Decides(f.reply) }

  ghost predicate Among(log: seq<Fact>, n: nat, f: Fact)
    requires n <= |log| && f.Replied?
  {
    exists k :: 0 <= k < n && ReasonFor(log[k], f.token, f.reply)
  }

  ghost predicate Reasoned(log: seq<Fact>) {
    forall j :: 0 <= j < |log| && Needs(log[j]) ==> Among(log, j, log[j])
  }

  /** Work under way has its reason, too. */
  ghost predicate Known(log: seq<Fact>, job: Job) {
    match job
    case RunJob(token) => exists k :: 0 <= k < |log| && ReasonFor(log[k], token, TerminalCreated)
    case FileJob(token) => exists k :: 0 <= k < |log| && ReasonFor(log[k], token, FileDone)
    case SignInJob(_) => true
  }

  ghost predicate Justified(c: Core) { Reasoned(c.log) && forall job :: job in c.jobs ==> Known(c.log, job) }

  // ----- Histories that grow -----

  /** What is added has its reasons, in itself or before. */
  ghost predicate Adds(log: seq<Fact>, more: seq<Fact>) {
    forall j :: 0 <= j < |more| && Needs(more[j]) ==> Among(log, |log|, more[j]) || Among(more, j, more[j])
  }

  lemma ReasonedMore(log: seq<Fact>, more: seq<Fact>)
    requires Reasoned(log) && Adds(log, more)
    ensures Reasoned(log + more)
  {
    hide ReasonFor, Decides;
    var all := log + more;
    forall j | 0 <= j < |all| && Needs(all[j]) ensures Among(all, j, all[j]) {
      var f := all[j];
      if j < |log| {
        assert log[j] == f;
        var k :| 0 <= k < j && ReasonFor(log[k], f.token, f.reply);
        assert all[k] == log[k];
      } else if Among(log, |log|, f) {
        var k :| 0 <= k < |log| && ReasonFor(log[k], f.token, f.reply);
        assert all[k] == log[k];
      } else {
        var i := j - |log|;
        assert more[i] == f;
        var k :| 0 <= k < i && ReasonFor(more[k], f.token, f.reply);
        assert all[|log| + k] == more[k];
      }
    }
  }

  lemma NoneAdds(more: seq<Fact>)
    requires forall j :: 0 <= j < |more| ==> !Needs(more[j])
    ensures forall log :: Adds(log, more)
  {
  }

  /** Additions that bring their reasons with them can follow one another. */
  lemma BothAdd(a: seq<Fact>, b: seq<Fact>)
    requires Adds([], a) && Adds([], b)
    ensures Adds([], a + b)
  {
    hide ReasonFor, Decides;
    var all := a + b;
    forall j | 0 <= j < |all| && Needs(all[j]) ensures Among(all, j, all[j]) {
      var f := all[j];
      if j < |a| {
        assert a[j] == f && Among(a, j, f);
        var k :| 0 <= k < j && ReasonFor(a[k], f.token, f.reply);
        assert all[k] == a[k];
      } else {
        var i := j - |a|;
        assert b[i] == f && Among(b, i, f);
        var k :| 0 <= k < i && ReasonFor(b[k], f.token, f.reply);
        assert all[|a| + k] == b[k];
      }
    }
  }

  lemma AddsAnywhere(log: seq<Fact>, more: seq<Fact>)
    requires Adds([], more)
    ensures Adds(log, more)
  {
    hide ReasonFor, Decides;
    forall j | 0 <= j < |more| && Needs(more[j]) ensures Among(more, j, more[j]) {
      assert !Among([], 0, more[j]);
    }
  }

  lemma KnownMore(log: seq<Fact>, more: seq<Fact>, job: Job)
    requires Known(log, job)
    ensures Known(log + more, job)
  {
    hide ReasonFor;
    var all := log + more;
    match job
    case RunJob(token) =>
      var k :| 0 <= k < |log| && ReasonFor(log[k], token, TerminalCreated);
      assert all[k] == log[k];
    case FileJob(token) =>
      var k :| 0 <= k < |log| && ReasonFor(log[k], token, FileDone);
      assert all[k] == log[k];
    case SignInJob(_) =>
  }

  // ----- Cards that go away -----

  lemma CancelNeeds(p: Pending)
    ensures forall j :: 0 <= j < |CancelFacts(p)| ==> !Needs(CancelFacts(p)[j])
    ensures forall j :: 0 <= j < |DropFacts(p)| ==> !Needs(DropFacts(p)[j])
  {
  }

  lemma {:induction false} CancelsAdd(ps: seq<Pending>)
    ensures Adds([], CancelAll(ps))
  {
    hide CancelFacts, Needs, Among;
    if ps != [] {
      CancelNeeds(ps[0]);
      CancelsAdd(ps[1..]);
      BothAdd(CancelFacts(ps[0]), CancelAll(ps[1..]));
    }
  }

  lemma AcceptAdds(p: Pending)
    requires p.kind.OpenUrl?
    ensures Adds([], AcceptFacts(p))
  {
    var fs := AcceptFacts(p);
    if p.responder.Some? {
      assert fs[0] == PageDone(p) && fs[1] == Replied(p.responder.value, Accepted("{}"));
      assert ReasonFor(fs[0], p.responder.value, Accepted("{}"));
    }
  }

  lemma {:induction false} SiftAdds(ps: seq<Pending>, sieve: Sieve)
    ensures Adds([], SiftFacts(ps, sieve))
  {
    hide AcceptFacts, DropFacts, Needs, Among;
    if ps != [] {
      var last, rest := ps[|ps| - 1], SiftFacts(ps[..|ps| - 1], sieve);
      SiftAdds(ps[..|ps| - 1], sieve);
      CancelNeeds(last);
      if !Stays(last, sieve) {
        if sieve.NotUrl? {
          AcceptAdds(last);
          BothAdd(AcceptFacts(last), rest);
        } else {
          BothAdd(rest, DropFacts(last));
        }
      }
    }
  }

  lemma {:induction false} SweepAdds(ts: seq<Thread>, s: Sweep)
    ensures Adds([], SweepFacts(ts, s))
  {
    hide Needs, Among, CancelAll, SiftFacts;
    if ts != [] {
      var t := ts[|ts| - 1];
      SweepAdds(ts[..|ts| - 1], s);
      CancelsAdd(t.pending);
      SiftAdds(t.pending, NoChanges);
      match s {
        case PruneChanges(closed) => SiftAdds(t.pending, LiveChanges(closed));
        case UrlDone(_, e) => SiftAdds(t.pending, NotUrl(e));
        case _ =>
      }
      BothAdd(SweepFacts(ts[..|ts| - 1], s), SweptFacts(t, s));
    }
  }

  lemma {:induction false} WithdrawAdds(id: nat, ps: seq<Prompt>)
    ensures Adds([], WithdrawAll(id, ps))
  {
    hide Among;
    if ps != [] {
      WithdrawAdds(id, ps[1..]);
      BothAdd([Withdrawn(id, ps[0])], WithdrawAll(id, ps[1..]));
    }
  }

  // ----- Answers -----

  lemma PermissionTold(c: Core, t: Thread, item: Pending, token: Token, answer: Answer, writes: bool)
    requires item.kind.Permission? && item.responder == Some(token)
    ensures var f, fs := Chosen(t.id, item, answer, writes), ItemFacts(c, t, item, token, answer);
            forall j :: 0 <= j < |fs| && Needs(fs[j]) ==> ReasonFor(f, fs[j].token, fs[j].reply)
  {
    hide ChoiceOf;
    var choices := item.kind.choices;
    ChoiceExactly(choices, answer);
    if ChoiceOf(choices, answer).Some? {
      var k: nat :| Picks(choices, answer, k) && choices[k] == ChoiceOf(choices, answer).value;
    }
  }

  lemma ItemTold(c: Core, t: Thread, item: Pending, token: Token, answer: Answer, writes: bool)
    requires item.responder == Some(token)
    ensures var f, fs := Chosen(t.id, item, answer, writes), ItemFacts(c, t, item, token, answer);
            forall j :: 0 <= j < |fs| && Needs(fs[j]) ==> ReasonFor(f, fs[j].token, fs[j].reply)
  {
    hide ChoiceOf;
    if item.kind.Permission? {
      PermissionTold(c, t, item, token, answer, writes);
    }
  }

  lemma AnswerAdds(c: Core, t: Thread, item: Pending, answer: Answer, writes: bool)
    ensures Adds([], [Chosen(t.id, item, answer, writes)] + AnswerFacts(c, t, item, answer))
  {
    hide ItemFacts, ReasonFor;
    var f, more := Chosen(t.id, item, answer, writes), AnswerFacts(c, t, item, answer);
    var fs := [f] + more;
    if item.responder.Some? {
      ItemTold(c, t, item, item.responder.value, answer, writes);
    }
    forall j | 0 <= j < |fs| && Needs(fs[j]) ensures Among(fs, j, fs[j]) {
      assert j > 0 && fs[j] == more[j - 1] && fs[0] == f;
      assert ReasonFor(fs[0], fs[j].token, fs[j].reply);
    }
  }

  // ----- Every move -----

  lemma PassAdds(c: Core, m: Move)
    requires Allowed(c, m) && m.Pass?
    ensures Adds([], Facts(c, m))
  {
    hide Kubyl, AllowOption, OwnTool, LastingFirst, KnownTitle;
    KubylExactly(c.threads[m.i], m.permission);
    var option := AllowOption(m.permission.options).value;
    AllowOptionExactly(m.permission.options, option);
    var fs := Facts(c, m);
    assert ReasonFor(fs[0], m.token, Selected(option));
  }

  lemma JobAdds(c: Core, m: Move)
    requires Justified(c) && Allowed(c, m) && m.FinishJob?
    ensures Adds(c.log, Facts(c, m))
  {
    hide Reasoned;
    var job := c.jobs[m.job];
    assert Known(c.log, job);
    var fs := Facts(c, m);
    assert |fs| == 1 && fs[0] == Replied(job.token, JobReply(job, m.ok));
    var made := if job.RunJob? then TerminalCreated else FileDone;
    var k :| 0 <= k < |c.log| && ReasonFor(c.log[k], job.token, made);
    assert ReasonFor(c.log[k], job.token, JobReply(job, m.ok));
  }

  lemma FactsAdd(c: Core, m: Move)
    requires Justified(c) && Allowed(c, m)
    ensures Adds(c.log, Facts(c, m))
  {
    hide Adds, Justified, SweepFacts, CancelAll, SiftFacts, WithdrawAll, AnswerFacts, Transcripts.Keeps, Transcripts.UniqueTools;
    if m.FinishJob? {
      JobAdds(c, m);
    } else {
      if m.Pass? {
        PassAdds(c, m);
      } else if SweepOf(m).Some? {
        SweepAdds(c.threads, SweepOf(m).value);
      } else if m.TakeAnswer? {
        AnswerAdds(c, c.threads[m.i], c.threads[m.i].pending[m.j], m.answer, c.allowWrites && c.threads[m.i].writes);
      } else {
        OtherAdd(c, m);
      }
      AddsAnywhere(c.log, Facts(c, m));
    }
  }

  lemma OtherAdd(c: Core, m: Move)
    requires Allowed(c, m) && !m.FinishJob? && !m.Pass? && SweepOf(m).None? && !m.TakeAnswer?
    ensures Adds([], Facts(c, m))
  {
    hide Adds, CancelAll, SiftFacts, WithdrawAll, Transcripts.Keeps, Transcripts.UniqueTools;
    if m.Withdraw? {
      var t := c.threads[m.i];
      var stop := if t.status.Running? && t.session.Some? && Connection(c, t.agent).Some?
        then [Interrupted(Connection(c, t.agent).value, t.session.value)] else [];
      WithdrawAdds(t.id, t.queued);
      CancelsAdd(t.pending);
      NoneAdds(stop);
      BothAdd(CancelAll(t.pending), stop);
      BothAdd(WithdrawAll(t.id, t.queued), CancelAll(t.pending) + stop);
    } else if m.HandFails? {
      var t := c.threads[m.i];
      var handed := [Handed(t.id, t.queued[0], m.conn, t.session.value, None)];
      CancelsAdd(t.pending);
      NoneAdds(handed);
      BothAdd(handed, CancelAll(t.pending));
    } else if m.Rest? {
      CancelsAdd(c.threads[m.i].pending);
    } else if m.Writes? {
      SiftAdds(c.threads[m.i].pending, NoChanges);
      NoneAdds([]);
    } else {
      QuietAdd(c, m);
    }
  }

  lemma QuietAdd(c: Core, m: Move)
    requires Allowed(c, m) && !m.FinishJob? && !m.Pass? && SweepOf(m).None? && !m.TakeAnswer?
    requires !m.Withdraw? && !m.HandFails? && !m.Rest? && !m.Writes?
    ensures Adds([], Facts(c, m))
  {
    hide Adds, Transcripts.Keeps, Transcripts.UniqueTools, LaunchOf, CoveredBy, Warned;
    NoneAdds(Facts(c, m));
  }

  // ----- Work -----

  /** Work that is new has its reason in what the move tells. */
  lemma JobsOf(c: Core, m: Move)
    requires Allowed(c, m) && !m.TakeAnswer?
    ensures forall job :: job in Do(c, m).jobs ==> job in c.jobs || job.SignInJob? || Known(Facts(c, m), job)
  {
    hide SweepAll, Transcripts.Settled, CancelAll, TurnNotice, Transcripts.Keeps, Transcripts.UniqueTools, Kept, SiftFacts,
         WithdrawAll, ShownEnv, Policy.Covers, Known, SweepFacts, Rested;
    if SweepOf(m).Some? {
      SweepJobs(c, m);
    } else if m.FinishJob? {
      FewerJobs(c, m);
    } else if m.RunGranted? {
      RunJobs(c, m);
    }
  }

  lemma FewerJobs(c: Core, m: Move)
    requires Allowed(c, m) && m.FinishJob?
    ensures forall job :: job in Do(c, m).jobs ==> job in c.jobs
  {
  }

  lemma SweepJobs(c: Core, m: Move)
    requires Allowed(c, m) && SweepOf(m).Some?
    ensures Do(c, m).jobs == c.jobs
  {
    hide SweepThreads, SweepFacts;
  }

  lemma RunJobs(c: Core, m: Move)
    requires Allowed(c, m) && m.RunGranted?
    ensures forall job :: job in Do(c, m).jobs ==> job in c.jobs || Known(Facts(c, m), job)
  {
    hide Policy.Covers, Warned, LaunchOf;
    var t := c.threads[m.i];
    if Connection(c, t.agent).Some? {
      var fs := Facts(c, m);
      assert ReasonFor(fs[0], m.token, TerminalCreated);
      assert Known(fs, RunJob(m.token));
    }
  }

  lemma AnswerJobs(c: Core, i: nat, j: nat, answer: Answer)
    requires i < |c.threads| && j < |c.threads[i].pending|
    ensures var m := TakeAnswer(i, j, answer);
            forall job :: job in Do(c, m).jobs ==> job in c.jobs || Known(Facts(c, m), job)
  {
    hide Known, ItemFacts, Do, Facts, AnswerItem;
    var t, item := c.threads[i], c.threads[i].pending[j];
    AnswerWork(c, i, j, answer);
    if !item.kind.Change? && item.responder.Some? {
      var e := Taking(c, i, j, answer);
      var own := ItemFacts(c, t, item, item.responder.value, answer);
      var chosen := Chosen(t.id, item, answer, c.allowWrites && t.writes);
      TakingSame(c, i, j, answer);
      ItemJobs(e, i, item, item.responder.value, answer, c.allowWrites && t.writes);
      SameOwn(c, e, t, e.threads[i], item, item.responder.value, answer);
      forall job | job in AnswerItem(e, i, item, item.responder.value, answer).jobs && job !in c.jobs
        ensures Known([chosen] + (ForgetFacts(item) + own), job)
      {
        KnownAround(chosen, ForgetFacts(item), own, job);
      }
    }
  }

  /** The state in which the answer to a card with a request is looked at. */
  function Taking(c: Core, i: nat, j: nat, answer: Answer): Core
    requires i < |c.threads| && j < |c.threads[i].pending|
  {
    var t, item := c.threads[i], c.threads[i].pending[j];
    Log(Log(TakeCard(c, i, j), [Chosen(t.id, item, answer, c.allowWrites && t.writes)]), ForgetFacts(item))
  }

  lemma AnswerWork(c: Core, i: nat, j: nat, answer: Answer)
    requires i < |c.threads| && j < |c.threads[i].pending|
    ensures var m, t, item := TakeAnswer(i, j, answer), c.threads[i], c.threads[i].pending[j];
            if item.kind.Change? || item.responder.None? then Do(c, m).jobs == c.jobs
            else
              && Do(c, m).jobs == AnswerItem(Taking(c, i, j, answer), i, item, item.responder.value, answer).jobs
              && Facts(c, m) == [Chosen(t.id, item, answer, c.allowWrites && t.writes)]
                                + (ForgetFacts(item) + ItemFacts(c, t, item, item.responder.value, answer))
  {
    hide AnswerItem, ItemFacts, ForgetFacts;
  }

  lemma TakingSame(c: Core, i: nat, j: nat, answer: Answer)
    requires i < |c.threads| && j < |c.threads[i].pending|
    ensures var d := Taking(c, i, j, answer);
            && |d.threads| == |c.threads| && d.threads[i].id == c.threads[i].id && d.threads[i].agent == c.threads[i].agent
            && d.slots == c.slots && d.now == c.now && d.jobs == c.jobs
  {
    hide ForgetFacts;
  }

  lemma SameOwn(c: Core, d: Core, t: Thread, u: Thread, item: Pending, token: Token, answer: Answer)
    requires c.slots == d.slots && c.now == d.now && t.id == u.id && t.agent == u.agent
    ensures ItemFacts(c, t, item, token, answer) == ItemFacts(d, u, item, token, answer)
  {
    hide ChoiceOf;
  }

  /** The work an answer begins is told in it, or is a file the user allowed. */
  lemma ItemJobs(c: Core, i: nat, item: Pending, token: Token, answer: Answer, writes: bool)
    requires i < |c.threads| && item.responder == Some(token)
    ensures var t := c.threads[i];
            forall job :: job in AnswerItem(c, i, item, token, answer).jobs && job !in c.jobs ==>
              Known([Chosen(t.id, item, answer, writes)] + ItemFacts(c, t, item, token, answer), job)
  {
    hide ChoiceOf, AnswerPermission;
    var t := c.threads[i];
    var f := Chosen(t.id, item, answer, writes);
    var fs := [f] + ItemFacts(c, t, item, token, answer);
    assert fs[0] == f;
    if item.kind.Permission? {
      Handing.PermissionLeaves(c, i, item, token, answer);
      PermissionJobs(c, i, item, token, answer);
    } else if item.kind.Command? {
      if Yes(answer) && item.launch.Some? && Connection(c, t.agent).Some? {
        assert fs[1].Ran? && ReasonFor(fs[1], token, TerminalCreated);
      }
    } else if IsFile(item.kind) && Yes(answer) {
      assert ReasonFor(fs[0], token, FileDone);
    }
  }

  lemma PermissionJobs(c: Core, i: nat, item: Pending, token: Token, answer: Answer)
    requires i < |c.threads| && item.kind.Permission?
    ensures AnswerPermission(c, i, item, token, answer).jobs == c.jobs
  {
    hide ChoiceOf;
  }

  /** What is told between changes nothing. */
  lemma KnownAround(f: Fact, middle: seq<Fact>, rest: seq<Fact>, job: Job)
    requires Known([f] + rest, job)
    ensures Known([f] + (middle + rest), job)
  {
    hide ReasonFor;
    match job
    case RunJob(token) => Around(f, middle, rest, token, TerminalCreated);
    case FileJob(token) => Around(f, middle, rest, token, FileDone);
    case SignInJob(_) =>
  }

  lemma Around(f: Fact, middle: seq<Fact>, rest: seq<Fact>, token: Token, reply: Reply)
    requires exists k :: 0 <= k < |[f] + rest| && ReasonFor(([f] + rest)[k], token, reply)
    ensures exists k :: 0 <= k < |[f] + (middle + rest)| && ReasonFor(([f] + (middle + rest))[k], token, reply)
  {
    hide ReasonFor;
    var all, few := [f] + (middle + rest), [f] + rest;
    var k :| 0 <= k < |few| && ReasonFor(few[k], token, reply);
    if k == 0 {
      assert all[0] == few[0];
    } else {
      assert all[k + |middle|] == few[k];
    }
  }

  lemma KnownLater(log: seq<Fact>, more: seq<Fact>, job: Job)
    requires Known(more, job)
    ensures Known(log + more, job)
  {
    hide ReasonFor;
    var all := log + more;
    match job
    case RunJob(token) =>
      var k :| 0 <= k < |more| && ReasonFor(more[k], token, TerminalCreated);
      assert all[|log| + k] == more[k];
    case FileJob(token) =>
      var k :| 0 <= k < |more| && ReasonFor(more[k], token, FileDone);
      assert all[|log| + k] == more[k];
    case SignInJob(_) =>
  }

  lemma LogOf(c: Core, m: Move)
    requires Allowed(c, m)
    ensures Do(c, m).log == c.log + Facts(c, m)
  {
    hide Do, Facts, After;
    if Local(m) {
      LocalDoes(c, m);
    } else if SweepOf(m).Some? {
      SweepDoes(c, m);
    } else {
      RestDoes(c, m);
    }
  }

  lemma MoveKept(c: Core, m: Move)
    requires Justified(c) && Allowed(c, m)
    ensures Justified(Do(c, m))
  {
    hide Do, Facts, Reasoned, Known, Adds;
    LogOf(c, m);
    FactsAdd(c, m);
    ReasonedMore(c.log, Facts(c, m));
    if m.TakeAnswer? {
      AnswerJobs(c, m.i, m.j, m.answer);
    } else {
      JobsOf(c, m);
    }
    forall job | job in Do(c, m).jobs ensures Known(c.log + Facts(c, m), job) {
      if job in c.jobs {
        KnownMore(c.log, Facts(c, m), job);
      } else if !job.SignInJob? {
        KnownLater(c.log, Facts(c, m), job);
      } else {
        SignInKnown(c.log + Facts(c, m), job);
      }
    }
  }

  lemma SignInKnown(log: seq<Fact>, job: Job)
    requires job.SignInJob?
    ensures Known(log, job)
  {
  }

  // ----- Over any run -----

  /** After any run, whatever an agent was told that stands for a decision was decided before:
      an option was selected because the user's answer to that request's card asks for just that option
      first, or because the request is for one of Kubyl's own tools and the option is its first that
      allows for ever, else once; a form was accepted with what the user submitted, a link when the user
      allowed it or its page was done; only a denial declines; a command or file was worked on only when
      it was let, and is reported only to the request it was for. */
  lemma EveryReplyHasItsReason(configured: set<string>, allowWrites: bool, events: seq<Event>, j: nat)
    requires var c := Run(Fresh(configured, allowWrites), events);
             j < |c.log| && c.log[j].Replied? && Decides(c.log[j].reply)
    ensures var log := Run(Fresh(configured, allowWrites), events).log;
            exists k :: 0 <= k < j && ReasonFor(log[k], log[j].token, log[j].reply)
  {
    hide Run, Do, Step, Allowed, ReasonFor;
    var start := Fresh(configured, allowWrites);
    AnyRun(start, events);
    forall c, m | Ids(c) && Justified(c) && Good(c, m, NoCare) ensures Justified(Do(c, m)) {
      MoveKept(c, m);
    }
    RunKeeps(Justified, start, events, NoCare);
    var log := Run(start, events).log;
    assert Needs(log[j]);
  }
}
