/** What every event does to the core: the specification of service.rs. */
module AgentSteps {
  import opened Wrappers
  import opened AgentTypes
  import Transcripts
  import Policy
  import Text

  // ----- Small changes -----

  function Log(c: Core, facts: seq<Fact>): Core {
    c.(log := c.log + facts)
  }

  function Put(c: Core, i: nat, t: Thread): Core
    requires i < |c.threads|
  {
    c.(threads := c.threads[i := t])
  }

  function SetStatus(c: Core, i: nat, status: Status): Core
    requires i < |c.threads|
  {
    Put(c, i, c.threads[i].(status := status))
  }

  /** Puts a card with the next id on a thread. */
  function Push(c: Core, i: nat, kind: PendingKind, responder: Option<Token>, launch: Option<Launch>,
                approval: Option<nat>): Core
    requires i < |c.threads|
  {
    var card := Pending(c.nextPending + 1, kind, responder, launch, approval);
    Put(c, i, c.threads[i].(pending := c.threads[i].pending + [card])).(nextPending := c.nextPending + 1)
  }

  function NewJob(c: Core, job: Job): Core {
    c.(jobs := c.jobs + [job])
  }

  function EndJob(c: Core, job: nat): Core
    requires job < |c.jobs|
  {
    c.(jobs := c.jobs[..job] + c.jobs[job + 1..])
  }

  // ----- Cards that go away without the user -----

  /** `answer_cancelled`; dropping the approval rejects the change. */
  function CancelFacts(p: Pending): seq<Fact> {
    (match p.responder
     case Some(token) =>
       [Replied(token,
                if p.kind.Permission? then PermissionCancelled
                else if p.kind.Form? || p.kind.OpenUrl? then FormCancelled
                else Cancelled)]
     case None => [])
    + ForgetFacts(p)
  }

  function ForgetFacts(p: Pending): seq<Fact> {
    match p.approval
    case Some(a) => [Forgotten(a)]
    case None => []
  }

  function CancelAll(ps: seq<Pending>): seq<Fact> {
    if ps == [] then [] else CancelFacts(ps[0]) + CancelAll(ps[1..])
  }

  /** A dropped card: its responder answers on drop. */
  function DropFacts(p: Pending): seq<Fact> {
    DropResponder(p) + ForgetFacts(p)
  }

  function AcceptFacts(p: Pending): seq<Fact> {
    [PageDone(p)]
    + (match p.responder
     case Some(token) => [Replied(token, Accepted("{}"))]
     case None => [])
    + ForgetFacts(p)
  }

  /** The cards a `retain` keeps. */
  datatype Sieve = NoChanges | LiveChanges(closed: set<nat>) | NotUrl(elicitation: string)

  predicate Stays(p: Pending, sieve: Sieve) {
    match sieve
    case NoChanges => !p.kind.Change?
    case LiveChanges(closed) => !p.kind.Change? || (p.approval.Some? && p.approval.value !in closed)
    case NotUrl(elicitation) => !(p.kind.OpenUrl? && p.kind.elicitation == elicitation)
  }

  function Kept(ps: seq<Pending>, sieve: Sieve): seq<Pending> {
    if ps == [] then []
    else Kept(ps[..|ps| - 1], sieve) + if Stays(ps[|ps| - 1], sieve) then [ps[|ps| - 1]] else []
  }

  /** What happens to the others: a finished web page is accepted, newest first; the rest is
      dropped. */
  function SiftFacts(ps: seq<Pending>, sieve: Sieve): seq<Fact> {
    if ps == [] then []
    else
      var last, rest := ps[|ps| - 1], SiftFacts(ps[..|ps| - 1], sieve);
      if Stays(last, sieve) then rest
      else if sieve.NotUrl? then AcceptFacts(last) + rest
      else rest + DropFacts(last)
  }

  // ----- Loops over all threads -----

  datatype Sweep =
    | RevokeWrites
    | PruneChanges(closed: set<nat>)
    | UrlDone(agent: string, elicitation: string)
    | AgentGone(agent: string)
    | Missing(agent: string)
    | StartFailed(agent: string)

  function Swept(t: Thread, s: Sweep): Thread {
    match s
    case RevokeWrites => t.(writes := false, pending := Kept(t.pending, NoChanges))
    case PruneChanges(closed) => t.(pending := Kept(t.pending, LiveChanges(closed)))
    case UrlDone(agent, e) => if t.agent == agent then t.(pending := Kept(t.pending, NotUrl(e))) else t
    case AgentGone(agent) =>
      if t.agent == agent
      then t.(entries := Transcripts.Settled(t.entries), pending := [], session := None, tasks := {}, status := Ended)
      else t
    case Missing(agent) => if t.agent == agent then t.(status := NotInstalled) else t
    case StartFailed(agent) => if t.agent == agent && t.session.None? then t.(status := Failed) else t
  }

  function SweptFacts(t: Thread, s: Sweep): seq<Fact> {
    match s
    case RevokeWrites => SiftFacts(t.pending, NoChanges)
    case PruneChanges(closed) => SiftFacts(t.pending, LiveChanges(closed))
    case UrlDone(agent, e) => if t.agent == agent then SiftFacts(t.pending, NotUrl(e)) else []
    case AgentGone(agent) => if t.agent == agent then CancelAll(t.pending) else []
    case _ => []
  }

  function SweepThreads(ts: seq<Thread>, s: Sweep): seq<Thread> {
    if ts == [] then [] else SweepThreads(ts[..|ts| - 1], s) + [Swept(ts[|ts| - 1], s)]
  }

  function SweepFacts(ts: seq<Thread>, s: Sweep): seq<Fact> {
    if ts == [] then [] else SweepFacts(ts[..|ts| - 1], s) + SweptFacts(ts[|ts| - 1], s)
  }

  function SweepAll(c: Core, s: Sweep): Core {
    Log(c, SweepFacts(c.threads, s)).(threads := SweepThreads(c.threads, s))
  }

  // ----- Agents and sessions -----

  predicate Waiting(t: Thread, agent: string) {
    && t.agent == agent && t.session.None?
    && (t.status.Starting? || t.status.NotInstalled? || t.status.Failed? || t.status.Ended?)
  }

  /** `open_session` */
  function OpenSession(c: Core, i: nat): (r: Core)
    requires i < |c.threads|
    ensures |r.threads| == |c.threads|
  {
    var t := c.threads[i];
    if Connection(c, t.agent).None? || t.cluster !in c.contexts then c
    else Put(c, i, t.(tasks := t.tasks + {c.nextTask})).(nextTask := c.nextTask + 1)
  }

  /** `open_waiting`, from the thread at `i` on. */
  function OpenFrom(c: Core, agent: string, i: nat): Core
    decreases |c.threads| - i
  {
    if i >= |c.threads| then c
    else if Waiting(c.threads[i], agent) then OpenFrom(OpenSession(SetStatus(c, i, Starting), i), agent, i + 1)
    else OpenFrom(c, agent, i + 1)
  }

  function EnsureAgent(c: Core, agent: string): Core {
    if agent in c.slots then
      if c.slots[agent].Ready? then OpenFrom(c, agent, 0) else c
    else if agent in c.agents && c.agents[agent].program then
      c.(slots := c.slots[agent := StartingSlot(c.nextTask)], nextTask := c.nextTask + 1)
    else if agent in c.agents && !c.agents[agent].checked then
      c.(lookup := Looking(Some(agent)))
    else
      SweepAll(c, Missing(agent))
  }

  function LookedUpStep(c: Core, found: set<string>): Core {
    match c.lookup
    case NoLookup => c
    case Looking(agent) =>
      var c1 := c.(lookup := NoLookup, agents := map a | a in c.agents :: Info(a in found, true));
      if agent.Some? then EnsureAgent(c1, agent.value) else c1
  }

  function AgentStartedStep(c: Core, agent: string, task: nat, conn: Option<nat>): Core {
    if !(agent in c.slots && c.slots[agent] == StartingSlot(task)) then c
    else match conn
      case Some(k) => OpenFrom(c.(slots := c.slots[agent := Ready(k)]), agent, 0)
      case None => SweepAll(c.(slots := c.slots - {agent}), StartFailed(agent))
  }

  // ----- Threads -----

  function NewThread(id: nat, agent: string, cluster: string, cwd: string, first: Option<Prompt>,
                     resume: Option<string>): Thread {
    Thread(id, agent, cluster, cwd, Starting,
           match first { case Some(p) => [Transcripts.User(p.text, p.chips)] case None => [] },
           None, [],
           match first { case Some(p) => [p] case None => [] },
           resume, true, None, false, {})
  }

  function StartThreadStep(c: Core, agent: string, cluster: string, cwd: string, first: Option<Prompt>,
                           resume: Option<string>): Core {
    var id := c.nextThread + 1;
    var c1 := c.(nextThread := id, contexts := c.contexts + {cluster},
                 threads := c.threads + [NewThread(id, agent, cluster, cwd, first, resume)], pruner := true);
    EnsureAgent(Log(c1, match first { case Some(p) => [Asked(id, p)] case None => [] }), agent)
  }

  function RetryStep(c: Core, id: nat): Core {
    match First(c.threads, ById(id))
    case None => c
    case Some(i) =>
      if c.threads[i].session.Some? then c
      else EnsureAgent(SetStatus(c, i, Starting), c.threads[i].agent)
  }

  function WithdrawAll(id: nat, ps: seq<Prompt>): seq<Fact> {
    if ps == [] then [] else [Withdrawn(id, ps[0])] + WithdrawAll(id, ps[1..])
  }

  function CancelAt(c: Core, i: nat): Core
    requires i < |c.threads|
  {
    var t := c.threads[i];
    var stop := if t.status.Running? && t.session.Some? && Connection(c, t.agent).Some?
      then [Interrupted(Connection(c, t.agent).value, t.session.value)] else [];
    Log(Put(c, i, t.(queued := [], pending := [])), WithdrawAll(t.id, t.queued) + CancelAll(t.pending) + stop)
  }

  function CancelStep(c: Core, id: nat): Core {
    match First(c.threads, ById(id))
    case None => c
    case Some(i) => CancelAt(c, i)
  }

  /** Takes a thread without cards and prompts out. */
  function RemoveAt(c: Core, i: nat): Core
    requires i < |c.threads|
  {
    var t, rest := c.threads[i], c.threads[..i] + c.threads[i + 1..];
    c.(threads := rest,
       slots := if First(rest, AnyOf(t.agent)).None? then c.slots - {t.agent} else c.slots,
       contexts := if First(rest, OnCluster(t.cluster)).None? then c.contexts - {t.cluster} else c.contexts,
       pruner := c.pruner && rest != [])
  }

  function CloseThreadStep(c: Core, id: nat): Core {
    match First(c.threads, ById(id))
    case None => c
    case Some(i) => RemoveAt(CancelAt(c, i), i)
  }

  predicate Empty(p: Prompt) { Text.Trim(p.text) == "" && p.chips == [] }

  function SendStep(c: Core, id: nat, prompt: Prompt, wire: Option<nat>): Core {
    match First(c.threads, ById(id))
    case None => c
    case Some(i) =>
      if Empty(prompt) then c
      else
        var t := c.threads[i];
        var t1 := t.(entries := t.entries + [Transcripts.User(prompt.text, prompt.chips)], queued := t.queued + [prompt]);
        var c1 := Log(Put(c, i, t1), [Asked(id, prompt)]);
        match t.status
        case Idle => NextPrompt(c1, id, wire)
        case Failed => RetryStep(c1, id)
        case Ended => RetryStep(c1, id)
        case NotInstalled => RetryStep(c1, id)
        case _ => c1
  }

  function SignInStep(c: Core, id: nat): Core {
    match First(c.threads, ById(id))
    case None => c
    case Some(i) =>
      var c1 := SetStatus(c, i, Starting);
      if Connection(c, c.threads[i].agent).None? then RetryStep(c1, id) else NewJob(c1, SignInJob(id))
  }

  function SignedInStep(c: Core, job: nat, ok: bool): Core {
    if !(job < |c.jobs| && c.jobs[job].SignInJob?) then c
    else
      var c1 := EndJob(c, job);
      match First(c.threads, ById(c.jobs[job].thread))
      case None => c1
      case Some(i) => if ok then OpenSession(c1, i) else SetStatus(c1, i, Failed)
  }

  // ----- Turns -----

  function Queue(c: Core, id: nat): nat {
    match First(c.threads, ById(id)) { case Some(i) => |c.threads[i].queued| case None => 0 }
  }

  /** The thread once the next prompt left its queue. */
  function Busy(t: Thread): Thread
    requires t.queued != []
  {
    t.(queued := t.queued[1..], firstPrompt := false, status := Running)
  }

  predicate CanPrompt(t: Thread) {
    t.status.Idle? && t.queued != [] && t.session.Some?
  }

  /** The first prompt of the thread at `i` goes to its connection. */
  function HandOver(c: Core, i: nat, conn: nat, wire: Option<nat>): Core
    requires i < |c.threads| && CanPrompt(c.threads[i])
  {
    var t := c.threads[i];
    var c1 := Log(Put(c, i, Busy(t)), [Handed(t.id, t.queued[0], conn, t.session.value, wire)]);
    match wire
    case Some(id) => c1.(flights := c1.flights[Flight(conn, id, t.session.value) := t.id])
    case None => c1
  }

  lemma FirstAfterPut(ts: seq<Thread>, i: nat, t: Thread, w: Which)
    requires i < |ts| && Fits(ts[i], w) == Fits(t, w)
    ensures First(ts[i := t], w) == First(ts, w)
  {
    if i == 0 {
      assert ts[i := t][1..] == ts[1..];
    } else {
      assert ts[i := t][1..] == ts[1..][i - 1 := t];
      FirstAfterPut(ts[1..], i - 1, t, w);
    }
  }

  function NextPrompt(c: Core, id: nat, wire: Option<nat>): Core
    decreases Queue(c, id), 0
  {
    match First(c.threads, ById(id))
    case None => c
    case Some(i) =>
      var t := c.threads[i];
      if !CanPrompt(t) then c
      else match Connection(c, t.agent)
        case None => Log(Put(c, i, Busy(t)), [Lost(id, t.queued[0])])
        case Some(conn) =>
          var c1 := HandOver(c, i, conn, wire);
          FirstAfterPut(c.threads, i, Busy(t), ById(id));
          if wire.Some? then c1 else TurnEnded(c1, id, TurnFailed("The connection closed"), wire)
  }

  function TurnNotice(result: TurnResult): seq<Transcripts.Entry> {
    match result
    case Stopped(StopCancelled) => [Transcripts.Notice("Stopped.", false)]
    case Stopped(MaxTokens) => [Transcripts.Notice("The agent stopped: it reached its token limit.", true)]
    case Stopped(MaxTurnRequests) => [Transcripts.Notice("The agent stopped: it reached its limit of steps.", true)]
    case Stopped(Refusal) => [Transcripts.Notice("The agent declined to continue.", true)]
    case TurnFailed(message) => [Transcripts.Notice(message, true)]
    case _ => []
  }

  function Rested(t: Thread, result: TurnResult): Thread {
    t.(entries := Transcripts.Settled(t.entries) + TurnNotice(result), pending := [], tasks := {},
       status := if result.AuthRequired? then NeedsSignIn else Idle)
  }

  function RestAt(c: Core, i: nat, result: TurnResult): Core
    requires i < |c.threads|
  {
    Log(Put(c, i, Rested(c.threads[i], result)), CancelAll(c.threads[i].pending))
  }

  function TurnEnded(c: Core, id: nat, result: TurnResult, wire: Option<nat>): Core
    decreases Queue(c, id), 1
  {
    match First(c.threads, ById(id))
    case None => c
    case Some(i) =>
      FirstAfterPut(c.threads, i, Rested(c.threads[i], result), ById(id));
      NextPrompt(RestAt(c, i, result), id, wire)
  }

  function OpenedThread(t: Thread, session: string): Thread {
    t.(session := Some(session), status := Idle, resume := None,
       firstPrompt := if t.resume.Some? then false else t.firstPrompt)
  }

  function SessionOpenedStep(c: Core, id: nat, task: nat, opening: Opening, wire: Option<nat>): Core {
    match First(c.threads, ById(id))
    case None => c
    case Some(i) =>
      if task !in c.threads[i].tasks then c
      else
        var t := c.threads[i].(tasks := c.threads[i].tasks - {task});
        match opening
        case Opened(session) => NextPrompt(Put(c, i, OpenedThread(t, session)), id, wire)
        case NeedsAuth => Put(c, i, t.(status := NeedsSignIn))
        case OpeningFailed => Put(c, i, t.(status := Failed))
  }

  // ----- Changes to the cluster -----

  function SetWritesStep(c: Core, id: nat, enabled: bool): Core {
    match First(c.threads, ById(id))
    case None => c
    case Some(i) =>
      var t, on := c.threads[i], enabled && c.allowWrites;
      if on then Put(c, i, t.(writes := true))
      else Log(Put(c, i, t.(writes := false, pending := Kept(t.pending, NoChanges))), SiftFacts(t.pending, NoChanges))
  }

  /** A change of settings also forgets which agents were found and looks them up again. */
  function SettingsStep(c: Core, allow: bool, configured: set<string>): Core {
    var c1 := if allow then c else SweepAll(c, RevokeWrites);
    c1.(allowWrites := allow, agents := map a | a in configured :: Info(false, false), lookup := Looking(None))
  }

  /** Every search for programs replaces the one under way. */
  function RefreshStep(c: Core): Core {
    c.(lookup := Looking(None))
  }

  function SetProgramStep(c: Core, agent: string, installed: bool): Core {
    if agent in c.agents then c.(agents := c.agents[agent := Info(installed, true)]) else c
  }

  function NoticeStep(c: Core, id: nat, text: string, error: bool): Core {
    match First(c.threads, ById(id))
    case None => c
    case Some(i) => Put(c, i, c.threads[i].(entries := c.threads[i].entries + [Transcripts.Notice(text, error)]))
  }

  function ChangeRequestedStep(c: Core, id: nat, proposal: string, approval: nat, gaveUp: bool): Core {
    if gaveUp then Log(c, [Forgotten(approval)])
    else match First(c.threads, ById(id)) {
      case Some(i) =>
        if c.threads[i].writes then Push(c, i, Change(proposal), None, None, Some(approval))
        else Log(c.(nextPending := c.nextPending + 1), [Forgotten(approval)])
      case None => Log(c.(nextPending := c.nextPending + 1), [Forgotten(approval)])
    }
  }

  // ----- What the agent asks -----

  const KubylTools: seq<string> :=
    ["cluster_info", "list_resources", "get_resource", "describe", "events", "logs", "top",
     "query_prometheus", "alerts", "can_i", "api_resources", "apply_manifest", "patch_resource",
     "delete_resource", "scale_resource", "restart_resource"]

  /** `is_kubyl_tool` */
  predicate IsKubylTool(text: string) {
    var name := Text.Trim(text);
    if "mcp__kubyl__" <= name then name[12..] in KubylTools
    else if "kubyl__" <= name then name[7..] in KubylTools
    else if "kubyl." <= name then name[6..] in KubylTools
    else if "kubyl/" <= name then name[6..] in KubylTools
    else "kubyl_" <= name && name[6..] in KubylTools
  }

  predicate Names(text: Option<string>) { text.Some? && IsKubylTool(text.value) }

  function OfKind(options: seq<PermissionOption>, kind: OptionKind): Option<string> {
    if options == [] then None
    else if options[0].kind == kind then Some(options[0].id)
    else OfKind(options[1..], kind)
  }

  function AllowOption(options: seq<PermissionOption>): Option<string> {
    match OfKind(options, AllowAlways)
    case Some(id) => Some(id)
    case None => OfKind(options, AllowOnce)
  }

  function Choices(options: seq<PermissionOption>): seq<Choice> {
    if options == [] then []
    else [Choice(options[0].id, options[0].kind.AllowAlways? || options[0].kind.AllowOnce?)] + Choices(options[1..])
  }

  predicate Kubyl(t: Thread, p: PermissionRequest) {
    Names(p.name) || Names(p.title) || Names(KnownTitle(t, p))
  }

  /** The title the thread knows the tool call by. */
  function KnownTitle(t: Thread, p: PermissionRequest): Option<string> {
    match Transcripts.Find(t.entries, p.tool) { case Some(tool) => Some(tool.title) case None => None }
  }

  function PermissionKind(t: Thread, p: PermissionRequest): PendingKind {
    var known := Transcripts.Find(t.entries, p.tool);
    Permission(p.tool,
               match p.title {
                 case Some(title) => title
                 case None => match known { case Some(tool) => tool.title case None => "A tool call" }
               },
               if p.input.Some? && p.input.value.command.Some? then p.input.value.command
               else if known.Some? && known.value.input.Some? then known.value.input.value.command
               else None,
               (if p.kind.Some? then p.kind else if known.Some? then known.value.kind else None)
                 == Some(Transcripts.Execute),
               Choices(p.options))
  }

  function PermissionStep(c: Core, agent: string, session: string, p: PermissionRequest, token: Token): Core {
    match First(c.threads, BySession(agent, session))
    case None => Log(c, [Replied(token, PermissionCancelled)])
    case Some(i) =>
      var t := c.threads[i];
      if Kubyl(t, p) && AllowOption(p.options).Some?
      then Log(c, [LetThrough(t.id, p, KnownTitle(t, p), token), Replied(token, Selected(AllowOption(p.options).value))])
      else Push(c, i, PermissionKind(t, p), Some(token), None, None)
  }

  function Lower(c: char): char {
    if 'A' <= c <= 'Z' then ((c as int) + 32) as char else c
  }

  /** `eq_ignore_ascii_case` */
  predicate SameName(a: string, b: string) {
    |a| == |b| && forall i :: 0 <= i < |a| ==> Lower(a[i]) == Lower(b[i])
  }

  function SafeEnv(env: seq<EnvVar>): seq<EnvVar> {
    if env == [] then []
    else (if SameName(env[0].name, "KUBECONFIG") then [] else [env[0]]) + SafeEnv(env[1..])
  }

  function LaunchOf(t: Thread, r: TerminalRequest): Launch {
    Launch(r.command, r.args, SafeEnv(r.env), match r.cwd { case Some(cwd) => cwd case None => t.cwd })
  }

  predicate Warned(r: TerminalRequest) { r.warned || |SafeEnv(r.env)| != |r.env| }

  /** The thread's grant lets the command run without asking. */
  predicate CoveredBy(t: Thread, r: TerminalRequest, now: nat) {
    && !Warned(r) && SafeEnv(r.env) == []
    && t.grant.Some? && Policy.Covers(t.grant.value.at, t.grant.value.command, Policy.Lines(r.command, r.args), now)
  }

  /** `run_command`, for a command that `card` stands behind. */
  function RunCommand(c: Core, thread: nat, agent: string, launch: Launch, token: Token, card: nat, byGrant: bool,
                      warned: bool): Core {
    if Connection(c, agent).None? then Log(c, [Replied(token, AgentStopped)])
    else Log(NewJob(c, RunJob(token)), [Ran(thread, launch, card, byGrant, warned, c.now, token)])
  }

  function TerminalStep(c: Core, agent: string, session: string, r: TerminalRequest, token: Token): Core {
    match First(c.threads, BySession(agent, session))
    case None => Log(c, [Replied(token, ThreadClosed)])
    case Some(i) =>
      var t := c.threads[i];
      var launch := LaunchOf(t, r);
      if CoveredBy(t, r, c.now)
      then RunCommand(Put(c, i, t.(grant := None)), t.id, agent, launch, token, t.grant.value.card, true, Warned(r))
      else Push(c, i, Command(Policy.Line(r.command, r.args), launch.cwd, ShownEnv(launch.env), Warned(r)), Some(token), Some(launch), None)
  }

  function AskStep(c: Core, agent: string, session: string, kind: PendingKind, token: Token): Core {
    match First(c.threads, BySession(agent, session))
    case None => Log(c, [Replied(token, ThreadClosed)])
    case Some(i) => Push(c, i, kind, Some(token), None, None)
  }

  /** The thread of the question's session, else the agent's running one, else any of its threads. */
  function ElicitationThread(c: Core, agent: string, of: Option<string>): (r: Option<nat>)
    ensures r.Some? ==> r.value < |c.threads| && c.threads[r.value].agent == agent
  {
    var named := if of.Some? then First(c.threads, BySession(agent, of.value)) else None;
    if named.Some? then named
    else if First(c.threads, RunningOf(agent)).Some? then First(c.threads, RunningOf(agent))
    else First(c.threads, AnyOf(agent))
  }

  function QuestionKind(q: Question): PendingKind {
    match q
    case FormQuestion(message) => Form(message)
    case UrlQuestion(message, url, id) => OpenUrl(message, url, id)
  }

  function ElicitationStep(c: Core, agent: string, question: Option<Question>, of: Option<string>, token: Token): Core {
    match question
    case None => Log(c, [Replied(token, InvalidParams)])
    case Some(q) =>
      match ElicitationThread(c, agent, of)
      case None => Log(c, [Replied(token, FormCancelled)])
      case Some(i) => Push(c, i, QuestionKind(q), Some(token), None, None)
  }

  function UpdateStep(c: Core, agent: string, session: string, u: Transcripts.Update): Core {
    var i := if First(c.threads, BySession(agent, session)).Some? then First(c.threads, BySession(agent, session))
      else First(c.threads, ByResume(agent, session));
    match i
    case None => c
    case Some(i) => Put(c, i, c.threads[i].(entries := Transcripts.Applied(c.threads[i].entries, u)))
  }

  function TurnEndedStep(c: Core, agent: string, session: string, id: nat, result: TurnResult, wire: Option<nat>): Core {
    var c1 := match Connection(c, agent) {
      case Some(conn) => c.(flights := c.flights - {Flight(conn, id, session)})
      case None => c
    };
    match First(c1.threads, BySession(agent, session))
    case None => c1
    case Some(i) => TurnEnded(c1, c1.threads[i].id, result, wire)
  }

  function ClosedStep(c: Core, agent: string): Core {
    SweepAll(c.(slots := c.slots - {agent}), AgentGone(agent))
  }

  /** `handle_call` */
  function CallStep(c: Core, agent: string, call: ClientCall, wire: Option<nat>): Core {
    match call
    case UpdateCall(session, u) => UpdateStep(c, agent, session, u)
    case PermissionCall(session, p, token) => PermissionStep(c, agent, session, p, token)
    case TerminalCall(session, r, token) => TerminalStep(c, agent, session, r, token)
    case ReadCall(session, path, token) => AskStep(c, agent, session, Read(path), token)
    case WriteCall(session, path, before, content, token) => AskStep(c, agent, session, Write(path, before, content), token)
    case ElicitationCall(question, of, token) => ElicitationStep(c, agent, question, of, token)
    case ElicitationComplete(id) => SweepAll(c, UrlDone(agent, id))
    case TurnEndedCall(session, id, result) => TurnEndedStep(c, agent, session, id, result, wire)
    case ClosedCall => ClosedStep(c, agent)
  }

  // ----- The user's answers -----

  function ChoiceWith(choices: seq<Choice>, allow: bool): Option<Choice> {
    if choices == [] then None
    else if choices[0].allow == allow then Some(choices[0])
    else ChoiceWith(choices[1..], allow)
  }

  function ChoiceNamed(choices: seq<Choice>, id: string): Option<Choice> {
    if choices == [] then None
    else if choices[0].id == id then Some(choices[0])
    else ChoiceNamed(choices[1..], id)
  }

  function ChoiceOf(choices: seq<Choice>, answer: Answer): Option<Choice> {
    match answer
    case Choose(id) => ChoiceNamed(choices, id)
    case Allow => ChoiceWith(choices, true)
    case _ => ChoiceWith(choices, false)
  }

  predicate Yes(answer: Answer) { answer.Allow? || answer.Choose? }

  function TakeCard(c: Core, i: nat, j: nat): Core
    requires i < |c.threads| && j < |c.threads[i].pending|
  {
    var ps := c.threads[i].pending;
    Put(c, i, c.threads[i].(pending := ps[..j] + ps[j + 1..]))
  }

  /** The answer to a permission prompt; allowing an execute prompt also grants its command. */
  function AnswerPermission(c: Core, i: nat, item: Pending, token: Token, answer: Answer): Core
    requires i < |c.threads| && item.kind.Permission?
  {
    match ChoiceOf(item.kind.choices, answer)
    case None => Log(c, [Replied(token, PermissionCancelled)])
    case Some(choice) =>
      var t := c.threads[i];
      var c1 := if choice.allow && item.kind.execute
        then Log(Put(c, i, t.(grant := Some(Grant(c.now, item.kind.command, item.id)))),
                 [Granted(t.id, item.id, item.kind.command, c.now)])
        else c;
      Log(c1, [Replied(token, Selected(choice.id))])
  }

  /** What the answer to a card with a responder does, once the card is off the thread. */
  function AnswerItem(c: Core, i: nat, item: Pending, token: Token, answer: Answer): Core
    requires i < |c.threads|
  {
    var t := c.threads[i];
    match item.kind
    case Permission(_, _, _, _, _) => AnswerPermission(c, i, item, token, answer)
    case Command(_, _, _, _) =>
      if !Yes(answer) then Log(c, [Replied(token, UserDeclined)])
      else if item.launch.None? then Log(c, [Replied(token, Unanswered)])
      else RunCommand(c, t.id, t.agent, item.launch.value, token, item.id, false, item.kind.warned)
    case Read(_) => if Yes(answer) then NewJob(c, FileJob(token)) else Log(c, [Replied(token, UserDeclined)])
    case Write(_, _, _) => if Yes(answer) then NewJob(c, FileJob(token)) else Log(c, [Replied(token, UserDeclined)])
    case Form(_) =>
      Log(c, [Replied(token, if answer.Submit? then Accepted(answer.content) else Declined)])
    case OpenUrl(_, _, _) => Log(c, [Replied(token, if Yes(answer) then Accepted("{}") else Declined)])
    case Change(_) => Log(c, [Replied(token, Unanswered)])
  }

  /** A responder that is dropped unanswered answers by itself. */
  function DropResponder(p: Pending): seq<Fact> {
    match p.responder
    case Some(token) => [Replied(token, Unanswered)]
    case None => []
  }

  function DecideItem(c: Core, item: Pending, answer: Answer): Core {
    match item.approval
    case None => Log(c, DropResponder(item))
    case Some(approval) =>
      Log(c, [Decided(approval, if Yes(answer) then Approved else Rejected)] + DropResponder(item))
  }

  /** The answer to a card that was just taken off the thread at `i`. */
  function AnswerTaken(c: Core, id: nat, i: nat, item: Pending, answer: Answer): Core
    requires i < |c.threads|
  {
    var c1 := Log(c, [Chosen(id, item, answer, c.allowWrites && c.threads[i].writes)]);
    if item.kind.Change? then DecideItem(c1, item, answer)
    else match item.responder
      case None => Log(c1, ForgetFacts(item))
      case Some(token) => AnswerItem(Log(c1, ForgetFacts(item)), i, item, token, answer)
  }

  function AnswerStep(c: Core, id: nat, card: nat, answer: Answer): Core {
    match First(c.threads, ById(id))
    case None => c
    case Some(i) =>
      match CardAt(c.threads[i].pending, card)
      case None => c
      case Some(j) => AnswerTaken(TakeCard(c, i, j), id, i, c.threads[i].pending[j], answer)
  }

  function JobDoneStep(c: Core, job: nat, ok: bool): Core {
    if job >= |c.jobs| then c
    else match c.jobs[job]
      case RunJob(token) => Log(EndJob(c, job), [Replied(token, if ok then TerminalCreated else WorkFailed)])
      case FileJob(token) => Log(EndJob(c, job), [Replied(token, if ok then FileDone else WorkFailed)])
      case SignInJob(_) => c
  }

  // ----- Any event -----

  function Step(c: Core, e: Event): Core {
    match e
    case StartThread(agent, cluster, cwd, first, resume) => StartThreadStep(c, agent, cluster, cwd, first, resume)
    case Retry(id) => RetryStep(c, id)
    case CloseThread(id) => CloseThreadStep(c, id)
    case Send(id, prompt, wire) => SendStep(c, id, prompt, wire)
    case Cancel(id) => CancelStep(c, id)
    case SignIn(id) => SignInStep(c, id)
    case SignedIn(job, ok) => SignedInStep(c, job, ok)
    case SetWrites(id, enabled) => SetWritesStep(c, id, enabled)
    case SettingsChanged(allow, configured) => SettingsStep(c, allow, configured)
    case RefreshAgents => RefreshStep(c)
    case SetProgram(agent, installed) => SetProgramStep(c, agent, installed)
    case AddNotice(id, text, error) => NoticeStep(c, id, text, error)
    case Prune(closed) => SweepAll(c, PruneChanges(closed))
    case ChangeRequested(id, proposal, approval, gaveUp) => ChangeRequestedStep(c, id, proposal, approval, gaveUp)
    case LookedUp(found) => LookedUpStep(c, found)
    case AgentStarted(agent, task, conn) => AgentStartedStep(c, agent, task, conn)
    case SessionOpened(id, task, opening, wire) => SessionOpenedStep(c, id, task, opening, wire)
    case Call(agent, call, wire) => CallStep(c, agent, call, wire)
    case AnswerCard(id, card, answer) => AnswerStep(c, id, card, answer)
    case JobDone(job, ok) => JobDoneStep(c, job, ok)
    case Tick(elapsed) => c.(now := c.now + elapsed)
  }

  function Run(c: Core, events: seq<Event>): Core
    decreases |events|
  {
    if events == [] then c else Run(Step(c, events[0]), events[1..])
  }

  /** `AgentCore::new` */
  function Fresh(configured: set<string>, allowWrites: bool): Core {
    Core([], map[], {}, map a | a in configured :: Info(false, false), NoLookup, [],
         0, 0, 0, false, allowWrites, 0, map[], [])
  }
}
