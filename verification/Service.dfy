/** `AgentCore` as an object: its methods work in place and do what `AgentSteps` says. */
module AgentService {
  import opened Wrappers
  import opened AgentTypes
  import opened AgentSteps
  import opened AgentRuns
  import Transcripts
  import Policy
  import Text

  class AgentCore {
    var threads: seq<Thread>
    var slots: map<string, Slot>
    var contexts: set<string>
    var agents: map<string, Info>
    var lookup: Lookup
    var jobs: seq<Job>
    var nextThread: nat
    var nextPending: nat
    var nextTask: nat
    var pruner: bool
    var allowWrites: bool
    var now: nat
    var flights: map<Flight, nat>
    var log: seq<Fact>

    /** The state as a value. */
    function View(): Core
      reads this
    {
      Core(threads, slots, contexts, agents, lookup, jobs, nextThread, nextPending, nextTask, pruner, allowWrites, now,
           flights, log)
    }

    constructor (configured: set<string>, allow: bool)
      ensures View() == Fresh(configured, allow)
    {
      threads, slots, contexts, lookup, jobs := [], map[], {}, NoLookup, [];
      agents := map a | a in configured :: Info(false, false);
      nextThread, nextPending, nextTask := 0, 0, 0;
      pruner, allowWrites, now, flights, log := false, allow, 0, map[], [];
    }

    // ----- Looking for threads and cards -----

    /** The position of the first thread that fits. */
    method Find(w: Which) returns (r: Option<nat>)
      ensures r == First(threads, w)
    {
      hide First, Fits;
      var i := 0;
      assert threads[0..] == threads;
      while i < |threads|
        invariant 0 <= i <= |threads|
        invariant First(threads, w) == Later(First(threads[i..], w), i)
      {
        FirstStep(threads, w, i);
        if Fits(threads[i], w) {
          return Some(i);
        }
        i := i + 1;
      }
      FirstNone(threads[i..], w);
      return None;
    }

    method FindCard(i: nat, card: nat) returns (r: Option<nat>)
      requires i < |threads|
      ensures r == CardAt(threads[i].pending, card)
    {
      var ps, j := threads[i].pending, 0;
      while j < |ps|
        invariant 0 <= j <= |ps|
        invariant CardAt(ps, card) == Later(CardAt(ps[j..], card), j)
      {
        if ps[j].id == card {
          return Some(j);
        }
        assert ps[j..][1..] == ps[j + 1..];
        j := j + 1;
      }
      return None;
    }

    // ----- Cards that go away without the user -----

    method AnswerCancelled(p: Pending)
      modifies `log
      ensures log == old(log) + CancelFacts(p)
    {
      if p.responder.Some? {
        var reply := if p.kind.Permission? then PermissionCancelled
          else if p.kind.Form? || p.kind.OpenUrl? then FormCancelled else Cancelled;
        log := log + [Replied(p.responder.value, reply)];
      }
      log := log + ForgetFacts(p);
    }

    /** Answers all cards of the thread and takes them off. */
    method DrainCards(i: nat)
      requires i < |threads|
      modifies `threads, `log
      ensures threads == old(threads)[i := old(threads)[i].(pending := [])]
      ensures log == old(log) + CancelAll(old(threads)[i].pending)
    {
      var ps, k := threads[i].pending, 0;
      threads := threads[i := threads[i].(pending := [])];
      while k < |ps|
        invariant 0 <= k <= |ps|
        invariant threads == old(threads)[i := old(threads)[i].(pending := [])]
        invariant log + CancelAll(ps[k..]) == old(log) + CancelAll(ps)
      {
        label before:
        AnswerCancelled(ps[k]);
        assert ps[k..][1..] == ps[k + 1..];
        Text.Assoc(old@before(log), CancelFacts(ps[k]), CancelAll(ps[k + 1..]));
        k := k + 1;
      }
      assert ps[k..] == [] && log + [] == log;
    }

    /** Keeps the cards that stay; the others are dropped, in order. */
    method RetainCards(i: nat, sieve: Sieve)
      requires i < |threads| && !sieve.NotUrl?
      modifies `threads, `log
      ensures threads == old(threads)[i := old(threads)[i].(pending := Kept(old(threads)[i].pending, sieve))]
      ensures log == old(log) + SiftFacts(old(threads)[i].pending, sieve)
    {
      var ps, kept, k := threads[i].pending, [], 0;
      assert log + [] == log;
      while k < |ps|
        invariant 0 <= k <= |ps|
        invariant threads == old(threads)
        invariant kept == Kept(ps[..k], sieve)
        invariant log == old(log) + SiftFacts(ps[..k], sieve)
      {
        assert ps[..k + 1][..k] == ps[..k];
        if Stays(ps[k], sieve) {
          kept := kept + [ps[k]];
        } else {
          Text.Assoc(old(log), SiftFacts(ps[..k], sieve), DropFacts(ps[k]));
          log := log + DropFacts(ps[k]);
        }
        k := k + 1;
      }
      assert ps[..k] == ps;
      threads := threads[i := threads[i].(pending := kept)];
    }

    /** Accepts the finished web pages, from the newest on. */
    method AcceptUrls(i: nat, elicitation: string)
      requires i < |threads|
      modifies `threads, `log
      ensures threads == old(threads)[i := old(threads)[i].(pending := Kept(old(threads)[i].pending, NotUrl(elicitation)))]
      ensures log == old(log) + SiftFacts(old(threads)[i].pending, NotUrl(elicitation))
    {
      var ps, rest, k := threads[i].pending, [], |threads[i].pending|;
      var sieve := NotUrl(elicitation);
      assert ps[..k] == ps;
      while k > 0
        invariant 0 <= k <= |ps|
        invariant threads == old(threads)
        invariant Kept(ps[..k], sieve) + rest == Kept(ps, sieve)
        invariant log + SiftFacts(ps[..k], sieve) == old(log) + SiftFacts(ps, sieve)
      {
        k := k - 1;
        assert ps[..k + 1][..k] == ps[..k];
        if Stays(ps[k], sieve) {
          Text.Assoc(Kept(ps[..k], sieve), [ps[k]], rest);
          rest := [ps[k]] + rest;
        } else {
          assert Kept(ps[..k + 1], sieve) == Kept(ps[..k], sieve) + [];
          Text.Assoc(log, AcceptFacts(ps[k]), SiftFacts(ps[..k], sieve));
          log := log + AcceptFacts(ps[k]);
        }
      }
      assert Kept(ps[..k], sieve) == [] && [] + rest == rest && log + [] == log;
      threads := threads[i := threads[i].(pending := rest)];
    }
  
    // ----- Loops over all threads -----

    /** What a sweep does to one thread. */
    method SweepOne(i: nat, s: Sweep)
      requires i < |threads|
      modifies `threads, `log
      ensures threads == old(threads)[i := Swept(old(threads)[i], s)]
      ensures log == old(log) + SweptFacts(old(threads)[i], s)
    {
      hide Kept, SiftFacts, CancelAll, Transcripts.Settled;
      var t := threads[i];
      assert log + [] == log && threads[i := t] == threads;
      match s
      case RevokeWrites =>
        threads := threads[i := t.(writes := false)];
        RetainCards(i, NoChanges);
      case PruneChanges(closed) => RetainCards(i, LiveChanges(closed));
      case UrlDone(agent, e) => if t.agent == agent { AcceptUrls(i, e); }
      case AgentGone(agent) =>
        if t.agent == agent {
          threads := threads[i := t.(entries := Transcripts.Settled(t.entries))];
          DrainCards(i);
          threads := threads[i := threads[i].(session := None, tasks := {}, status := Ended)];
        }
      case Missing(agent) => if t.agent == agent { threads := threads[i := t.(status := NotInstalled)]; }
      case StartFailed(agent) =>
        if t.agent == agent && t.session.None? { threads := threads[i := t.(status := Failed)]; }
    }

    method EachThread(s: Sweep)
      modifies `threads, `log
      ensures View() == SweepAll(old(View()), s)
    {
      hide Swept, SweptFacts, SweepThreads, SweepFacts;
      ghost var ts := threads;
      var i := 0;
      NothingSwept(s);
      assert log + [] == log;
      while i < |threads|
        invariant 0 <= i <= |threads| == |ts|
        invariant threads == SweepThreads(ts[..i], s) + ts[i..] && |SweepThreads(ts[..i], s)| == i
        invariant log == old(log) + SweepFacts(ts[..i], s)
      {
        SweptUpTo(ts, i, s);
        SweepOne(i, s);
        Text.Assoc(old(log), SweepFacts(ts[..i], s), SweptFacts(ts[i], s));
        i := i + 1;
      }
      assert ts[..i] == ts && ts[i..] == [];
    }

    // ----- Agents and sessions -----

    method OpenSession(i: nat)
      requires i < |threads|
      modifies `threads, `nextTask
      ensures View() == AgentSteps.OpenSession(old(View()), i)
    {
      var t := threads[i];
      if t.agent in slots && slots[t.agent].Ready? && t.cluster in contexts {
        threads := threads[i := t.(tasks := t.tasks + {nextTask})];
        nextTask := nextTask + 1;
      }
    }

    /** The positions of the threads that wait for the agent. */
    method Waiters(agent: string) returns (waiting: seq<nat>)
      ensures Lists(waiting, threads, agent, 0)
    {
      hide AgentSteps.Waiting;
      waiting := [];
      var i := 0;
      while i < |threads|
        invariant 0 <= i <= |threads|
        invariant Lists(waiting, threads[..i], agent, 0)
      {
        if Waiting(threads[i], agent) {
          waiting := waiting + [i];
        }
        i := i + 1;
      }
      assert threads[..i] == threads;
    }

    /** Opens a session for each thread that waits for the agent. */
    method OpenWaiting(agent: string)
      modifies `threads, `nextTask
      ensures View() == OpenFrom(old(View()), agent, 0)
    {
      hide AgentSteps.Waiting, OpenFrom, Lists, AgentSteps.OpenSession;
      var waiting := Waiters(agent);
      var j := 0;
      ghost var from := 0;
      assert waiting[0..] == waiting;
      while j < |waiting|
        invariant 0 <= j <= |waiting| && 0 <= from <= |threads|
        invariant Lists(waiting[j..], threads, agent, from)
        invariant OpenFrom(View(), agent, from) == OpenFrom(old(View()), agent, 0)
      {
        ghost var c, rest := View(), waiting[j..];
        var k := waiting[j];
        NextWaiter(c, rest, agent, from);
        threads := threads[k := threads[k].(status := Starting)];
        OpenSession(k);
        assert View() == AgentSteps.OpenSession(SetStatus(c, k, Starting), k);
        assert rest[1..] == waiting[j + 1..];
        from := k + 1;
        j := j + 1;
      }
      LastWaiter(View(), waiting[j..], agent, from);
    }

    /** Starts the agent if it is not, or opens the sessions that wait for it. */
    method EnsureAgent(agent: string)
      modifies this
      ensures View() == AgentSteps.EnsureAgent(old(View()), agent)
    {
      hide OpenFrom, SweepAll;
      if agent in slots {
        if slots[agent].Ready? {
          OpenWaiting(agent);
        }
      } else if agent in agents && agents[agent].program {
        slots := slots[agent := StartingSlot(nextTask)];
        nextTask := nextTask + 1;
      } else if agent in agents && !agents[agent].checked {
        lookup := Looking(Some(agent));
      } else {
        EachThread(Missing(agent));
      }
    }

    method LookedUp(found: set<string>)
      modifies this
      ensures View() == LookedUpStep(old(View()), found)
    {
      hide AgentSteps.EnsureAgent;
      match lookup
      case NoLookup =>
      case Looking(agent) =>
        lookup := NoLookup;
        agents := map a | a in agents :: Info(a in found, true);
        if agent.Some? {
          EnsureAgent(agent.value);
        }
    }

    method AgentStarted(agent: string, task: nat, conn: Option<nat>)
      modifies this
      ensures View() == AgentStartedStep(old(View()), agent, task, conn)
    {
      hide OpenFrom, SweepAll;
      if agent in slots && slots[agent] == StartingSlot(task) {
        match conn
        case Some(k) =>
          slots := slots[agent := Ready(k)];
          OpenWaiting(agent);
        case None =>
          slots := slots - {agent};
          EachThread(StartFailed(agent));
      }
    }

    // ----- Threads -----

    method StartThread(agent: string, cluster: string, cwd: string, first: Option<Prompt>, resume: Option<string>)
      returns (id: nat)
      modifies this
      ensures View() == StartThreadStep(old(View()), agent, cluster, cwd, first, resume)
      ensures id == nextThread == old(nextThread) + 1
    {
      hide AgentSteps.EnsureAgent;
      nextThread := nextThread + 1;
      id := nextThread;
      contexts := contexts + {cluster};
      var entries, queued := [], [];
      if first.Some? {
        entries := [Transcripts.User(first.value.text, first.value.chips)];
        queued := [first.value];
        log := log + [Asked(id, first.value)];
      }
      threads := threads + [Thread(id, agent, cluster, cwd, Starting, entries, None, [], queued, resume, true, None, false, {})];
      pruner := true;
      assert old(log) + [] == old(log);
      EnsureAgent(agent);
      EnsureKeepsCounter(old(View()), agent, cluster, cwd, first, resume);
    }

    method Retry(id: nat)
      modifies this
      ensures View() == RetryStep(old(View()), id)
    {
      hide AgentSteps.EnsureAgent;
      var i := Find(ById(id));
      if i.Some? && threads[i.value].session.None? {
        threads := threads[i.value := threads[i.value].(status := Starting)];
        EnsureAgent(threads[i.value].agent);
      }
    }

    method CancelThread(i: nat)
      requires i < |threads|
      modifies `threads, `log
      ensures View() == CancelAt(old(View()), i)
    {
      hide CancelAll;
      var t, k := threads[i], 0;
      assert log + [] == log;
      assert t.queued[0..] == t.queued;
      threads := threads[i := t.(queued := [])];
      while k < |t.queued|
        invariant 0 <= k <= |t.queued|
        invariant threads == old(threads)[i := t.(queued := [])]
        invariant log + WithdrawAll(t.id, t.queued[k..]) == old(log) + WithdrawAll(t.id, t.queued)
      {
        assert t.queued[k..][1..] == t.queued[k + 1..];
        Text.Assoc(log, [Withdrawn(t.id, t.queued[k])], WithdrawAll(t.id, t.queued[k + 1..]));
        log := log + [Withdrawn(t.id, t.queued[k])];
        k := k + 1;
      }
      assert log + [] == log;
      DrainCards(i);
      Text.Assoc(old(log), WithdrawAll(t.id, t.queued), CancelAll(t.pending));
      ghost var w := WithdrawAll(t.id, t.queued) + CancelAll(t.pending);
      assert w + [] == w;
      if t.status.Running? && t.session.Some? && t.agent in slots && slots[t.agent].Ready? {
        var stop := [Interrupted(slots[t.agent].conn, t.session.value)];
        Text.Assoc(old(log), w, stop);
        log := log + stop;
      }
    }

    method Cancel(id: nat)
      modifies this
      ensures View() == CancelStep(old(View()), id)
    {
      var i := Find(ById(id));
      if i.Some? {
        CancelThread(i.value);
      }
    }

    method CloseThread(id: nat)
      modifies this
      ensures View() == CloseThreadStep(old(View()), id)
    {
      hide CancelAll, WithdrawAll, Fits;
      var i := Find(ById(id));
      if i.Some? {
        var t := threads[i.value];
        CancelThread(i.value);
        threads := threads[..i.value] + threads[i.value + 1..];
        var others := Find(AnyOf(t.agent));
        if others.None? {
          slots := slots - {t.agent};
        }
        others := Find(OnCluster(t.cluster));
        if others.None? {
          contexts := contexts - {t.cluster};
        }
        if threads == [] {
          pruner := false;
        }
      }
    }

    method Send(id: nat, prompt: Prompt, wire: Option<nat>)
      modifies this
      ensures View() == SendStep(old(View()), id, prompt, wire)
    {
      hide AgentSteps.NextPrompt, RetryStep, Empty;
      var i := Find(ById(id));
      if i.Some? && !Empty(prompt) {
        var t := threads[i.value];
        threads := threads[i.value := t.(entries := t.entries + [Transcripts.User(prompt.text, prompt.chips)],
                                         queued := t.queued + [prompt])];
        log := log + [Asked(id, prompt)];
        match t.status
        case Idle => NextPrompt(id, wire);
        case Failed => Retry(id);
        case Ended => Retry(id);
        case NotInstalled => Retry(id);
        case _ =>
      }
    }

    method SignIn(id: nat)
      modifies this
      ensures View() == SignInStep(old(View()), id)
    {
      hide RetryStep;
      var i := Find(ById(id));
      if i.Some? {
        var agent := threads[i.value].agent;
        threads := threads[i.value := threads[i.value].(status := Starting)];
        if agent in slots && slots[agent].Ready? {
          jobs := jobs + [SignInJob(id)];
        } else {
          Retry(id);
        }
      }
    }

    method SignedIn(job: nat, ok: bool)
      modifies this
      ensures View() == SignedInStep(old(View()), job, ok)
    {
      if job < |jobs| && jobs[job].SignInJob? {
        var id := jobs[job].thread;
        jobs := jobs[..job] + jobs[job + 1..];
        var i := Find(ById(id));
        if i.Some? {
          if ok {
            OpenSession(i.value);
          } else {
            threads := threads[i.value := threads[i.value].(status := Failed)];
          }
        }
      }
    }

    // ----- Turns -----

    /** Hands the next prompt to the agent, if the thread is idle. */
    method NextPrompt(id: nat, wire: Option<nat>)
      modifies this
      ensures View() == AgentSteps.NextPrompt(old(View()), id, wire)
      decreases Queue(View(), id), 0
    {
      hide Transcripts.Settled, CancelAll;
      var i := Find(ById(id));
      if i.Some? && CanPrompt(threads[i.value]) {
        var t := threads[i.value];
        FirstAfterPut(threads, i.value, Busy(t), ById(id));
        threads := threads[i.value := t.(queued := t.queued[1..], firstPrompt := false, status := Running)];
        if !(t.agent in slots && slots[t.agent].Ready?) {
          log := log + [Lost(id, t.queued[0])];
        } else {
          var conn := slots[t.agent].conn;
          log := log + [Handed(t.id, t.queued[0], conn, t.session.value, wire)];
          if wire.Some? {
            flights := flights[Flight(conn, wire.value, t.session.value) := t.id];
          } else {
            TurnEnded(id, TurnFailed("The connection closed"), wire);
          }
        }
      }
    }

    /** The turn is over: settles the thread, and goes on with the next prompt. */
    method TurnEnded(id: nat, result: TurnResult, wire: Option<nat>)
      modifies this
      ensures View() == AgentSteps.TurnEnded(old(View()), id, result, wire)
      decreases Queue(View(), id), 1
    {
      hide Transcripts.Settled, CancelAll;
      var i := Find(ById(id));
      if i.Some? {
        var t := threads[i.value];
        FirstAfterPut(threads, i.value, Rested(t, result), ById(id));
        threads := threads[i.value := t.(entries := Transcripts.Settled(t.entries))];
        DrainCards(i.value);
        var u := threads[i.value];
        threads := threads[i.value := u.(entries := u.entries + TurnNotice(result), tasks := {},
                                         status := if result.AuthRequired? then NeedsSignIn else Idle)];
        assert threads == old(threads)[i.value := Rested(t, result)];
        NextPrompt(id, wire);
      }
    }

    method SessionOpened(id: nat, task: nat, opening: Opening, wire: Option<nat>)
      modifies this
      ensures View() == SessionOpenedStep(old(View()), id, task, opening, wire)
    {
      hide AgentSteps.NextPrompt;
      var i := Find(ById(id));
      if i.Some? && task in threads[i.value].tasks {
        var t := threads[i.value].(tasks := threads[i.value].tasks - {task});
        match opening
        case Opened(session) =>
          var first := t.resume.None? && t.firstPrompt;
          threads := threads[i.value := t.(session := Some(session), status := Idle, resume := None, firstPrompt := first)];
          NextPrompt(id, wire);
        case NeedsAuth => threads := threads[i.value := t.(status := NeedsSignIn)];
        case OpeningFailed => threads := threads[i.value := t.(status := Failed)];
      }
    }

    // ----- Changes to the cluster -----

    method SetWrites(id: nat, enabled: bool)
      modifies this
      ensures View() == SetWritesStep(old(View()), id, enabled)
    {
      hide Kept, SiftFacts;
      var i := Find(ById(id));
      if i.Some? {
        var on := enabled && allowWrites;
        threads := threads[i.value := threads[i.value].(writes := on)];
        if !on {
          RetainCards(i.value, NoChanges);
        }
      }
    }

    method RefreshAgents()
      modifies this
      ensures View() == RefreshStep(old(View()))
    {
      lookup := Looking(None);
    }

    method SetProgram(agent: string, installed: bool)
      modifies this
      ensures View() == SetProgramStep(old(View()), agent, installed)
    {
      if agent in agents {
        agents := agents[agent := Info(installed, true)];
      }
    }

    method AddNotice(id: nat, text: string, error: bool)
      modifies this
      ensures View() == NoticeStep(old(View()), id, text, error)
    {
      var i := Find(ById(id));
      if i.Some? {
        threads := threads[i.value := threads[i.value].(entries := threads[i.value].entries + [Transcripts.Notice(text, error)])];
      }
    }

    method SettingsChanged(allow: bool, configured: set<string>)
      modifies this
      ensures View() == SettingsStep(old(View()), allow, configured)
    {
      hide SweepThreads, SweepFacts;
      if !allow {
        EachThread(RevokeWrites);
      }
      allowWrites := allow;
      agents := map a | a in configured :: Info(false, false);
      RefreshAgents();
    }

    method PushCard(i: nat, kind: PendingKind, responder: Option<Token>, launch: Option<Launch>, approval: Option<nat>)
      requires i < |threads|
      modifies `threads, `nextPending
      ensures View() == Push(old(View()), i, kind, responder, launch, approval)
    {
      nextPending := nextPending + 1;
      var card := Pending(nextPending, kind, responder, launch, approval);
      threads := threads[i := threads[i].(pending := threads[i].pending + [card])];
    }

    method ChangeRequested(id: nat, proposal: string, approval: nat, gaveUp: bool)
      modifies this
      ensures View() == ChangeRequestedStep(old(View()), id, proposal, approval, gaveUp)
    {
      if gaveUp {
        log := log + [Forgotten(approval)];
      } else {
        var i := Find(ById(id));
        if i.Some? && threads[i.value].writes {
          PushCard(i.value, Change(proposal), None, None, Some(approval));
        } else {
          nextPending := nextPending + 1;
          log := log + [Forgotten(approval)];
        }
      }
    }

    // ----- What the agent asks -----

    method Reply(token: Token, reply: Reply)
      modifies `log
      ensures View() == Log(old(View()), [Replied(token, reply)])
    {
      log := log + [Replied(token, reply)];
    }

    method Update(agent: string, session: string, u: Transcripts.Update)
      modifies this
      ensures View() == UpdateStep(old(View()), agent, session, u)
    {
      hide Transcripts.Applied;
      var i := Find(BySession(agent, session));
      if i.None? {
        i := Find(ByResume(agent, session));
      }
      if i.Some? {
        threads := threads[i.value := threads[i.value].(entries := Transcripts.Applied(threads[i.value].entries, u))];
      }
    }

    /** The first option of a kind. */
    static method FindOption(options: seq<PermissionOption>, kind: OptionKind) returns (r: Option<string>)
      ensures r == OfKind(options, kind)
    {
      var i := 0;
      while i < |options|
        invariant 0 <= i <= |options|
        invariant OfKind(options, kind) == OfKind(options[i..], kind)
      {
        assert options[i..][0] == options[i];
        if options[i].kind == kind {
          return Some(options[i].id);
        }
        assert options[i..][1..] == options[i + 1..];
        i := i + 1;
      }
      return None;
    }

    method AskPermission(agent: string, session: string, p: PermissionRequest, token: Token)
      modifies this
      ensures View() == PermissionStep(old(View()), agent, session, p, token)
    {
      hide AgentSteps.Kubyl, PermissionKind, OfKind;
      var i := Find(BySession(agent, session));
      if i.None? {
        Reply(token, PermissionCancelled);
        return;
      }
      if Kubyl(threads[i.value], p) {
        var option := FindOption(p.options, AllowAlways);
        if option.None? {
          option := FindOption(p.options, AllowOnce);
        }
        if option.Some? {
          log := log + [LetThrough(threads[i.value].id, p, KnownTitle(threads[i.value], p), token)];
          Reply(token, Selected(option.value));
          return;
        }
      }
      PushCard(i.value, PermissionKind(threads[i.value], p), Some(token), None, None);
    }

    /** The environment without what would swap the thread's kubeconfig. */
    static method WithoutKubeconfig(env: seq<EnvVar>) returns (r: seq<EnvVar>)
      ensures r == SafeEnv(env)
    {
      hide SameName;
      r := [];
      var i := 0;
      assert env[0..] == env;
      while i < |env|
        invariant 0 <= i <= |env|
        invariant r + SafeEnv(env[i..]) == SafeEnv(env)
      {
        assert env[i..][0] == env[i] && env[i..][1..] == env[i + 1..];
        var kept := if SameName(env[i].name, "KUBECONFIG") then [] else [env[i]];
        Text.Assoc(r, kept, SafeEnv(env[i + 1..]));
        r := r + kept;
        i := i + 1;
      }
      assert env[i..] == [] && r + [] == r;
    }

    method RunCommand(thread: nat, agent: string, launch: Launch, token: Token, card: nat, byGrant: bool, warned: bool)
      modifies this
      ensures View() == AgentSteps.RunCommand(old(View()), thread, agent, launch, token, card, byGrant, warned)
    {
      if agent in slots && slots[agent].Ready? {
        jobs := jobs + [RunJob(token)];
        log := log + [Ran(thread, launch, card, byGrant, warned, now, token)];
      } else {
        log := log + [Replied(token, AgentStopped)];
      }
    }

    method CreateTerminal(agent: string, session: string, r: TerminalRequest, token: Token)
      modifies this
      ensures View() == TerminalStep(old(View()), agent, session, r, token)
    {
      hide SafeEnv, Policy.Line, Policy.Lines, Policy.Covers, AgentSteps.RunCommand;
      var i := Find(BySession(agent, session));
      if i.None? {
        Reply(token, ThreadClosed);
        return;
      }
      var t := threads[i.value];
      var env := WithoutKubeconfig(r.env);
      var warned := r.warned || |env| != |r.env|;
      var launch := Launch(r.command, r.args, env, match r.cwd { case Some(cwd) => cwd case None => t.cwd });
      var lines := Policy.Lines(r.command, r.args);
      if !warned && env == [] && t.grant.Some? && Policy.Covers(t.grant.value.at, t.grant.value.command, lines, now) {
        threads := threads[i.value := t.(grant := None)];
        RunCommand(t.id, agent, launch, token, t.grant.value.card, true, warned);
      } else {
        var line := Policy.CommandLine(r.command, r.args);
        PushCard(i.value, Command(line, launch.cwd, ShownEnv(env), warned), Some(token), Some(launch), None);
      }
    }

    method Ask(agent: string, session: string, kind: PendingKind, token: Token)
      modifies this
      ensures View() == AskStep(old(View()), agent, session, kind, token)
    {
      var i := Find(BySession(agent, session));
      if i.None? {
        Reply(token, ThreadClosed);
      } else {
        PushCard(i.value, kind, Some(token), None, None);
      }
    }

    method Elicit(agent: string, question: Option<Question>, of: Option<string>, token: Token)
      modifies this
      ensures View() == ElicitationStep(old(View()), agent, question, of, token)
    {
      if question.None? {
        Reply(token, InvalidParams);
        return;
      }
      var i := None;
      if of.Some? {
        i := Find(BySession(agent, of.value));
      }
      if i.None? {
        i := Find(RunningOf(agent));
      }
      if i.None? {
        i := Find(AnyOf(agent));
      }
      if i.None? {
        Reply(token, FormCancelled);
      } else {
        PushCard(i.value, QuestionKind(question.value), Some(token), None, None);
      }
    }

    method EndTurn(agent: string, session: string, id: nat, result: TurnResult, wire: Option<nat>)
      modifies this
      ensures View() == TurnEndedStep(old(View()), agent, session, id, result, wire)
    {
      hide AgentSteps.TurnEnded;
      if agent in slots && slots[agent].Ready? {
        flights := flights - {Flight(slots[agent].conn, id, session)};
      }
      var i := Find(BySession(agent, session));
      if i.Some? {
        TurnEnded(threads[i.value].id, result, wire);
      }
    }

    /** `handle_call` */
    method HandleCall(agent: string, call: ClientCall, wire: Option<nat>)
      modifies this
      ensures View() == CallStep(old(View()), agent, call, wire)
    {
      hide UpdateStep, PermissionStep, TerminalStep, AskStep, ElicitationStep, SweepAll, TurnEndedStep;
      match call
      case UpdateCall(session, u) => Update(agent, session, u);
      case PermissionCall(session, p, token) => AskPermission(agent, session, p, token);
      case TerminalCall(session, r, token) => CreateTerminal(agent, session, r, token);
      case ReadCall(session, path, token) => Ask(agent, session, Read(path), token);
      case WriteCall(session, path, before, content, token) => Ask(agent, session, Write(path, before, content), token);
      case ElicitationCall(question, of, token) => Elicit(agent, question, of, token);
      case ElicitationComplete(id) => EachThread(UrlDone(agent, id));
      case TurnEndedCall(session, id, result) => EndTurn(agent, session, id, result, wire);
      case ClosedCall =>
        slots := slots - {agent};
        EachThread(AgentGone(agent));
    }

    // ----- The user's answers -----

    method AnswerPrompt(i: nat, item: Pending, token: Token, answer: Answer)
      requires i < |threads| && item.kind.Permission?
      modifies this
      ensures View() == AnswerPermission(old(View()), i, item, token, answer)
    {
      hide ChoiceOf;
      var choice := ChoiceOf(item.kind.choices, answer);
      if choice.None? {
        Reply(token, PermissionCancelled);
      } else {
        if choice.value.allow && item.kind.execute {
          threads := threads[i := threads[i].(grant := Some(Grant(now, item.kind.command, item.id)))];
          log := log + [Granted(threads[i].id, item.id, item.kind.command, now)];
        }
        Reply(token, Selected(choice.value.id));
      }
    }

    method AnswerCardOf(i: nat, item: Pending, token: Token, answer: Answer)
      requires i < |threads|
      modifies this
      ensures View() == AnswerItem(old(View()), i, item, token, answer)
    {
      hide AnswerPermission, AgentSteps.RunCommand;
      var yes := Yes(answer);
      match item.kind
      case Permission(_, _, _, _, _) => AnswerPrompt(i, item, token, answer);
      case Command(_, _, _, warned) =>
        if !yes {
          Reply(token, UserDeclined);
        } else if item.launch.None? {
          Reply(token, Unanswered);
        } else {
          RunCommand(threads[i].id, threads[i].agent, item.launch.value, token, item.id, false, warned);
        }
      case Read(_) => ReadOrWrite(token, yes);
      case Write(_, _, _) => ReadOrWrite(token, yes);
      case Form(_) => Reply(token, if answer.Submit? then Accepted(answer.content) else Declined);
      case OpenUrl(_, _, _) => Reply(token, if yes then Accepted("{}") else Declined);
      case Change(_) => Reply(token, Unanswered);
    }

    method ReadOrWrite(token: Token, yes: bool)
      modifies this
      ensures View() == if yes then NewJob(old(View()), FileJob(token)) else Log(old(View()), [Replied(token, UserDeclined)])
    {
      if yes {
        jobs := jobs + [FileJob(token)];
      } else {
        Reply(token, UserDeclined);
      }
    }

    /** `answer` */
    method AnswerCard(id: nat, card: nat, answer: Answer)
      modifies this
      ensures View() == AnswerStep(old(View()), id, card, answer)
    {
      hide AnswerTaken;
      var i := Find(ById(id));
      if i.None? {
        return;
      }
      var j := FindCard(i.value, card);
      if j.None? {
        return;
      }
      var ps := threads[i.value].pending;
      threads := threads[i.value := threads[i.value].(pending := ps[..j.value] + ps[j.value + 1..])];
      Settle(id, i.value, ps[j.value], answer);
    }

    /** Gives the answer to a card that was taken off the thread. */
    method Settle(id: nat, i: nat, item: Pending, answer: Answer)
      requires i < |threads|
      modifies this
      ensures View() == AnswerTaken(old(View()), id, i, item, answer)
    {
      hide AnswerItem;
      log := log + [Chosen(id, item, answer, allowWrites && threads[i].writes)];
      if item.kind.Change? {
        if item.approval.Some? {
          var decision := if Yes(answer) then Approved else Rejected;
          log := log + ([Decided(item.approval.value, decision)] + DropResponder(item));
        } else {
          log := log + DropResponder(item);
        }
        return;
      }
      log := log + ForgetFacts(item);
      if item.responder.Some? {
        AnswerCardOf(i, item, item.responder.value, answer);
      }
    }

    method JobDone(job: nat, ok: bool)
      modifies this
      ensures View() == JobDoneStep(old(View()), job, ok)
    {
      if job < |jobs| && !jobs[job].SignInJob? {
        var done := jobs[job];
        jobs := jobs[..job] + jobs[job + 1..];
        Reply(done.token, if !ok then WorkFailed else if done.RunJob? then TerminalCreated else FileDone);
      }
    }

    // ----- Any event -----

    /** What the user does. */
    method HandleUser(e: Event)
      requires FromUser(e)
      modifies this
      ensures View() == Step(old(View()), e)
    {
      hide StartThreadStep, RetryStep, CloseThreadStep, SendStep, CancelStep, SignInStep, SetWritesStep, SettingsStep, AnswerStep;
      match e
      case StartThread(agent, cluster, cwd, first, resume) =>
        var id := StartThread(agent, cluster, cwd, first, resume);
      case Retry(id) => Retry(id);
      case CloseThread(id) => CloseThread(id);
      case Send(id, prompt, wire) => Send(id, prompt, wire);
      case Cancel(id) => Cancel(id);
      case SignIn(id) => SignIn(id);
      case SetWrites(id, enabled) => SetWrites(id, enabled);
      case SettingsChanged(allow, configured) => SettingsChanged(allow, configured);
      case AnswerCard(id, card, answer) => AnswerCard(id, card, answer);
    }

    method Handle(e: Event)
      modifies this
      ensures View() == Step(old(View()), e)
    {
      hide Step, SignedInStep, SweepAll, ChangeRequestedStep, LookedUpStep, AgentStartedStep, SessionOpenedStep, CallStep, JobDoneStep;
      if FromUser(e) {
        HandleUser(e);
        return;
      }
      OthersStep(View(), e);
      match e
      case SignedIn(job, ok) => SignedIn(job, ok);
      case RefreshAgents => RefreshAgents();
      case SetProgram(agent, installed) => SetProgram(agent, installed);
      case AddNotice(id, text, error) => AddNotice(id, text, error);
      case Prune(closed) => EachThread(PruneChanges(closed));
      case ChangeRequested(id, proposal, approval, gaveUp) => ChangeRequested(id, proposal, approval, gaveUp);
      case LookedUp(found) => LookedUp(found);
      case AgentStarted(agent, task, conn) => AgentStarted(agent, task, conn);
      case SessionOpened(id, task, opening, wire) => SessionOpened(id, task, opening, wire);
      case Call(agent, call, wire) => HandleCall(agent, call, wire);
      case JobDone(job, ok) => JobDone(job, ok);
      case Tick(elapsed) => now := now + elapsed;
    }

    /** Handles a run of events, so that what holds of runs holds of the object. */
    method HandleAll(events: seq<Event>)
      modifies this
      ensures View() == Run(old(View()), events)
    {
      hide Step;
      var i := 0;
      assert events[0..] == events;
      while i < |events|
        invariant 0 <= i <= |events|
        invariant Run(View(), events[i..]) == Run(old(View()), events)
      {
        assert events[i..][0] == events[i] && events[i..][1..] == events[i + 1..];
        Handle(events[i]);
        i := i + 1;
      }
      assert events[i..] == [];
    }
  }

  lemma OthersStep(c: Core, e: Event)
    requires !FromUser(e)
    ensures Step(c, e) ==
      match e
      case SignedIn(job, ok) => SignedInStep(c, job, ok)
      case RefreshAgents => RefreshStep(c)
      case SetProgram(agent, installed) => SetProgramStep(c, agent, installed)
      case AddNotice(id, text, error) => NoticeStep(c, id, text, error)
      case Prune(closed) => SweepAll(c, PruneChanges(closed))
      case ChangeRequested(id, proposal, approval, gaveUp) => ChangeRequestedStep(c, id, proposal, approval, gaveUp)
      case LookedUp(found) => LookedUpStep(c, found)
      case AgentStarted(agent, task, conn) => AgentStartedStep(c, agent, task, conn)
      case SessionOpened(id, task, opening, wire) => SessionOpenedStep(c, id, task, opening, wire)
      case Call(agent, call, wire) => CallStep(c, agent, call, wire)
      case JobDone(job, ok) => JobDoneStep(c, job, ok)
      case Tick(elapsed) => c.(now := c.now + elapsed)
  {
  }

  // ----- Sweeps, thread by thread -----

  lemma NothingSwept(s: Sweep)
    ensures SweepThreads([], s) == [] && SweepFacts([], s) == []
  {
  }

  lemma SweptUpTo(ts: seq<Thread>, i: nat, s: Sweep)
    requires i < |ts| && |SweepThreads(ts[..i], s)| == i
    ensures (SweepThreads(ts[..i], s) + ts[i..])[i] == ts[i]
    ensures (SweepThreads(ts[..i], s) + ts[i..])[i := Swept(ts[i], s)] == SweepThreads(ts[..i + 1], s) + ts[i + 1..]
    ensures |SweepThreads(ts[..i + 1], s)| == i + 1
    ensures SweepFacts(ts[..i + 1], s) == SweepFacts(ts[..i], s) + SweptFacts(ts[i], s)
  {
    hide Swept, SweptFacts;
    assert ts[..i + 1][..i] == ts[..i];
  }

  // ----- Waiting threads, listed -----

  /** The positions, in order, of the threads from `from` on that wait for the agent. */
  predicate Lists(waiting: seq<nat>, ts: seq<Thread>, agent: string, from: nat) {
    && (forall k :: 0 <= k < |waiting| ==> from <= waiting[k] < |ts| && Waiting(ts[waiting[k]], agent))
    && (forall k, l :: 0 <= k < l < |waiting| ==> waiting[k] < waiting[l])
    && (forall p :: from <= p < |ts| && Waiting(ts[p], agent) ==> p in waiting)
  }

  lemma {:induction false} SkipTo(c: Core, agent: string, from: nat, k: nat)
    requires from <= k <= |c.threads|
    requires forall p :: from <= p < k ==> !Waiting(c.threads[p], agent)
    ensures OpenFrom(c, agent, from) == OpenFrom(c, agent, k)
    decreases k - from
  {
    hide Waiting;
    if from < k {
      SkipTo(c, agent, from + 1, k);
    }
  }

  /** The next listed thread is the next one to open. */
  lemma NextWaiter(c: Core, waiting: seq<nat>, agent: string, from: nat)
    requires Lists(waiting, c.threads, agent, from) && waiting != [] && from <= |c.threads|
    ensures waiting[0] < |c.threads|
    ensures var d := OpenSession(SetStatus(c, waiting[0], Starting), waiting[0]);
            && OpenFrom(c, agent, from) == OpenFrom(d, agent, waiting[0] + 1)
            && Lists(waiting[1..], d.threads, agent, waiting[0] + 1) && |d.threads| == |c.threads|
  {
    hide Waiting;
    var k := waiting[0];
    SkipTo(c, agent, from, k);
    var d := OpenSession(SetStatus(c, k, Starting), k);
  }

  lemma LastWaiter(c: Core, waiting: seq<nat>, agent: string, from: nat)
    requires Lists(waiting, c.threads, agent, from) && waiting == [] && from <= |c.threads|
    ensures OpenFrom(c, agent, from) == c
  {
    hide Waiting;
    SkipTo(c, agent, from, |c.threads|);
  }

  lemma EnsureKeepsCounter(c: Core, agent: string, cluster: string, cwd: string, first: Option<Prompt>, resume: Option<string>)
    ensures StartThreadStep(c, agent, cluster, cwd, first, resume).nextThread == c.nextThread + 1
  {
    hide SweepAll, OpenFrom;
    var c1 := Log(c.(nextThread := c.nextThread + 1, contexts := c.contexts + {cluster},
                     threads := c.threads + [NewThread(c.nextThread + 1, agent, cluster, cwd, first, resume)], pruner := true),
                  match first { case Some(p) => [Asked(c.nextThread + 1, p)] case None => [] });
    assert SweepAll(c1, Missing(agent)).nextThread == c1.nextThread by { SweepCounter(c1, Missing(agent)); }
    OpenCounter(c1, agent, 0);
  }

  lemma SweepCounter(c: Core, s: Sweep)
    ensures SweepAll(c, s).nextThread == c.nextThread
  {
  }

  lemma {:induction false} OpenCounter(c: Core, agent: string, i: nat)
    ensures OpenFrom(c, agent, i).nextThread == c.nextThread
    decreases |c.threads| - i
  {
    if i < |c.threads| {
      OpenCounter(OpenSession(SetStatus(c, i, Starting), i), agent, i + 1);
      OpenCounter(c, agent, i + 1);
    }
  }

  lemma FirstStep(ts: seq<Thread>, w: Which, i: nat)
    requires i < |ts|
    ensures First(ts[i..], w) == if Fits(ts[i], w) then Some(0) else Later(First(ts[i + 1..], w), 1)
  {
    hide Fits;
    assert ts[i..][0] == ts[i] && ts[i..][1..] == ts[i + 1..];
  }

  lemma FirstNone(ts: seq<Thread>, w: Which)
    requires ts == []
    ensures First(ts, w) == None
  {
  }

  function Later(r: Option<nat>, offset: nat): Option<nat> {
    match r { case Some(i) => Some(i + offset) case None => None }
  }
}
