/** Threads, agents and the user's decisions: the data of service.rs. */
module AgentTypes {
  import opened Wrappers
  import Transcripts
  import Policy
  import Text

  /** One request of an agent, by its connection and its arrival number there: the thing a
      responder answers. */
  datatype Token = Token(conn: nat, serial: nat)

  datatype Reply =
    | Selected(option: string)
    | PermissionCancelled
    | Accepted(content: string)
    | Declined
    | FormCancelled
    | TerminalCreated
    | FileDone
    | WorkFailed
    | UserDeclined
    | Cancelled
    | ThreadClosed
    | AgentStopped
    | InvalidParams
    | MethodNotFound
    | NoTerminal
    | Served
    | Unanswered

  datatype Prompt = Prompt(text: string, chips: seq<string>)

  /** `shown` is what is left of the value once secrets are taken out. */
  datatype EnvVar = EnvVar(name: string, value: string, shown: string)

  datatype ShownVar = ShownVar(name: string, value: string)

  /** What a card shows of an environment. */
  function ShownEnv(env: seq<EnvVar>): seq<ShownVar> {
    seq(|env|, i requires 0 <= i < |env| => ShownVar(env[i].name, env[i].shown))
  }

  datatype Launch = Launch(command: string, args: seq<string>, env: seq<EnvVar>, cwd: string)

  datatype Choice = Choice(id: string, allow: bool)

  datatype PendingKind =
    | Permission(tool: string, title: string, command: Option<string>, execute: bool, choices: seq<Choice>)
    | Command(line: string, cwd: string, env: seq<ShownVar>, warned: bool)
    | Read(path: string)
    | Write(path: string, before: Option<string>, content: string)
    | Change(proposal: string)
    | Form(message: string)
    | OpenUrl(message: string, url: string, elicitation: string)

  /** Something waiting for the user. `approval` is the way back to a waiting change tool. */
  datatype Pending = Pending(id: nat, kind: PendingKind, responder: Option<Token>, launch: Option<Launch>,
                             approval: Option<nat>)

  datatype Answer = Choose(option: string) | Allow | Deny | Submit(content: string)

  datatype Decision = Approved | Rejected

  datatype Status = Starting | Idle | Running | NeedsSignIn | NotInstalled | Failed | Ended

  /** An allowed execute permission; `card` is the pending id it came from. */
  datatype Grant = Grant(at: nat, command: Option<string>, card: nat)

  /** `tasks` are the session openings whose handles the thread keeps. */
  datatype Thread = Thread(id: nat, agent: string, cluster: string, cwd: string, status: Status,
                           entries: seq<Transcripts.Entry>, session: Option<string>, pending: seq<Pending>,
                           queued: seq<Prompt>, resume: Option<string>, firstPrompt: bool,
                           grant: Option<Grant>, writes: bool, tasks: set<nat>)

  datatype Slot = StartingSlot(task: nat) | Ready(conn: nat)

  datatype Info = Info(program: bool, checked: bool)

  /** Detached host work: nobody can cancel it. Events name a job by its position. */
  datatype Job = RunJob(token: Token) | FileJob(token: Token) | SignInJob(thread: nat)

  datatype Lookup = NoLookup | Looking(agent: Option<string>)

  /** A prompt handed to a connection whose end the core has not heard of yet. */
  datatype Flight = Flight(conn: nat, id: nat, session: string)

  /** What happened, for the properties over whole runs; `writes` is whether changes were switched
      on, in the settings and for the thread. */
  datatype Fact =
    | Asked(thread: nat, prompt: Prompt)
    | Handed(thread: nat, prompt: Prompt, conn: nat, session: string, id: Option<nat>)
    | Withdrawn(thread: nat, prompt: Prompt)
    | Lost(thread: nat, prompt: Prompt)
    | Interrupted(conn: nat, session: string)
    | Chosen(thread: nat, item: Pending, answer: Answer, writes: bool)
    | Granted(thread: nat, card: nat, command: Option<string>, at: nat)
    | LetThrough(thread: nat, ask: PermissionRequest, known: Option<string>, token: Token)
    | Ran(thread: nat, launch: Launch, card: nat, byGrant: bool, warned: bool, at: nat, token: Token)
    | PageDone(item: Pending)
    | Replied(token: Token, reply: Reply)
    | Decided(approval: nat, decision: Decision)
    | Forgotten(approval: nat)

  /** The state of `AgentCore`, with the clock, the prompts in flight and the threads they are of, and
      the history. */
  datatype Core = Core(threads: seq<Thread>, slots: map<string, Slot>, contexts: set<string>,
                       agents: map<string, Info>, lookup: Lookup, jobs: seq<Job>,
                       nextThread: nat, nextPending: nat, nextTask: nat, pruner: bool, allowWrites: bool,
                       now: nat, flights: map<Flight, nat>, log: seq<Fact>)

  // ----- What the agent sends -----

  datatype StopReason = EndTurn | StopCancelled | MaxTokens | MaxTurnRequests | Refusal | OtherReason

  datatype TurnResult = Stopped(reason: StopReason) | AuthRequired | TurnFailed(message: string)

  datatype OptionKind = AllowAlways | AllowOnce | RejectOnce | RejectAlways

  datatype PermissionOption = PermissionOption(id: string, kind: OptionKind)

  datatype PermissionRequest = PermissionRequest(tool: string, name: Option<string>, title: Option<string>,
                                                 kind: Option<Transcripts.ToolKind>,
                                                 input: Option<Transcripts.Input>,
                                                 options: seq<PermissionOption>)

  /** `warned` is whether `command_warnings` finds anything in the command line. */
  datatype TerminalRequest = TerminalRequest(command: string, args: seq<string>, env: seq<EnvVar>,
                                             cwd: Option<string>, warned: bool)

  datatype Question = FormQuestion(message: string) | UrlQuestion(message: string, url: string, id: string)

  datatype ClientCall =
    | UpdateCall(session: string, update: Transcripts.Update)
    | PermissionCall(session: string, permission: PermissionRequest, token: Token)
    | TerminalCall(session: string, terminal: TerminalRequest, token: Token)
    | ReadCall(session: string, path: string, token: Token)
    | WriteCall(session: string, path: string, before: Option<string>, content: string, token: Token)
    | ElicitationCall(question: Option<Question>, of: Option<string>, token: Token)
    | ElicitationComplete(elicitation: string)
    | TurnEndedCall(session: string, id: nat, result: TurnResult)
    | ClosedCall

  datatype Opening = Opened(session: string) | NeedsAuth | OpeningFailed

  /** What can happen to the core: the user, the app, timers, finished work, calls of agents.
      `wire` is the id `send_ordered` gives the prompt the event hands over, if it hands one
      over; `None` when the writer has stopped. */
  datatype Event =
    | StartThread(agent: string, cluster: string, cwd: string, first: Option<Prompt>, resume: Option<string>)
    | Retry(id: nat)
    | CloseThread(id: nat)
    | Send(id: nat, prompt: Prompt, wire: Option<nat>)
    | Cancel(id: nat)
    | SignIn(id: nat)
    | SignedIn(job: nat, ok: bool)
    | SetWrites(id: nat, enabled: bool)
    | SettingsChanged(allow: bool, configured: set<string>)
    | RefreshAgents
    | SetProgram(agent: string, installed: bool)
    | AddNotice(id: nat, text: string, error: bool)
    | Prune(closed: set<nat>)
    | ChangeRequested(id: nat, proposal: string, approval: nat, gaveUp: bool)
    | LookedUp(found: set<string>)
    | AgentStarted(agent: string, task: nat, conn: Option<nat>)
    | SessionOpened(id: nat, task: nat, opening: Opening, wire: Option<nat>)
    | Call(agent: string, call: ClientCall, wire: Option<nat>)
    | AnswerCard(id: nat, card: nat, answer: Answer)
    | JobDone(job: nat, ok: bool)
    | Tick(elapsed: nat)

  // ----- Looking things up -----

  /** The ways the code looks for a thread. */
  datatype Which =
    | ById(id: nat)
    | BySession(agent: string, session: string)
    | ByResume(agent: string, session: string)
    | RunningOf(agent: string)
    | AnyOf(agent: string)
    | OnCluster(cluster: string)

  predicate Fits(t: Thread, w: Which) {
    match w
    case ById(id) => t.id == id
    case BySession(agent, session) => t.agent == agent && t.session == Some(session)
    case ByResume(agent, session) => t.agent == agent && t.resume == Some(session)
    case RunningOf(agent) => t.agent == agent && t.status == Running
    case AnyOf(agent) => t.agent == agent
    case OnCluster(cluster) => t.cluster == cluster
  }

  /** The first thread that fits. */
  function First(ts: seq<Thread>, w: Which): (r: Option<nat>)
    ensures r.Some? ==> r.value < |ts| && Fits(ts[r.value], w)
  {
    if ts == [] then None
    else if Fits(ts[0], w) then Some(0)
    else match First(ts[1..], w) { case Some(i) => Some(i + 1) case None => None }
  }

  lemma {:induction false} FirstIsFirst(ts: seq<Thread>, w: Which)
    ensures First(ts, w).None? <==> forall i :: 0 <= i < |ts| ==> !Fits(ts[i], w)
    ensures First(ts, w).Some? ==> forall i :: 0 <= i < First(ts, w).value ==> !Fits(ts[i], w)
  {
    if ts != [] && !Fits(ts[0], w) {
      FirstIsFirst(ts[1..], w);
      assert forall i :: 0 < i < |ts| ==> ts[i] == ts[1..][i - 1];
    }
  }

  /** The position of a card. */
  function CardAt(ps: seq<Pending>, card: nat): (r: Option<nat>)
    ensures r.Some? ==> r.value < |ps| && ps[r.value].id == card
  {
    if ps == [] then None
    else if ps[0].id == card then Some(0)
    else match CardAt(ps[1..], card) { case Some(i) => Some(i + 1) case None => None }
  }

  function Connection(c: Core, agent: string): Option<nat> {
    if agent in c.slots && c.slots[agent].Ready? then Some(c.slots[agent].conn) else None
  }
}
