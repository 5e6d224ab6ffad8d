/** One connection to an agent, step by step: the request ids and waiters of jsonrpc.rs, and the
    router and running prompts of acp.rs. Each move is one thing that one of its concurrent parts does while it
    holds what it needs; the moves of different tasks interleave freely. */
module Wires {
  import opened Wrappers
  import opened AgentTypes
  import AgentRuns
  import Transcripts

  // ----- What the agent writes -----

  datatype Notification =
    | SessionUpdate(session: string, update: Transcripts.Update)
    | ElicitationDone(elicitation: string)
    | OtherNote

  /** A request, as far as its parameters were understood: `None` when they were not. `fits` is
      whether a file to write has an absolute path and no more than the largest size. */
  datatype Request =
    | RequestPermission(ask: Option<(string, PermissionRequest)>)
    | CreateElicitation(question: Option<Question>, of: Option<string>)
    | CreateTerminal(run: Option<(string, TerminalRequest)>)
    | TerminalOutput
    | TerminalWait
    | TerminalKill
    | TerminalRelease
    | ReadTextFile(read: Option<(string, string)>)
    | WriteTextFile(write: Option<(string, string, string)>, fits: bool)
    | OtherRequest

  /** `Noise` is everything `dispatch` does not take further: text that is no JSON, envelopes with
      neither a method nor an id, and answers whose id is no number. */
  datatype Message =
    | Answer(id: nat, result: TurnResult)
    | Ask(request: Request)
    | Note(note: Notification)
    | Noise

  // ----- Our side -----

  datatype Waiter = Future | Ordered

  /** How far a request of ours is; `Returned` is what the sender was told. */
  datatype Stage = Begun | Registered | Sent | Failing | Returned(ok: bool)

  /** A request of ours. `session` is that of a prompt. `since` is how much was heard when its waiter
      was registered, `early` whether that was before the drain. */
  datatype Outgoing = Outgoing(session: Option<string>, stage: Stage, since: nat, early: bool)

  datatype Item =
    | Response(id: nat, result: TurnResult)
    | Request(token: Token, request: Request)
    | Notice(note: Notification)

  /** An item of the incoming stream; `source` is the message it comes from, or the number of
      messages heard when the drain made it. */
  datatype Arrival = Arrival(source: nat, item: Item)

  /** How a waiter was resolved. */
  datatype Resolution = Resolution(id: nat, source: nat, result: TurnResult)

  /** What the router sent to the app, and which arrival it is about. */
  datatype Sending = Sending(arrival: nat, source: nat, call: ClientCall)

  datatype Task =
    | WaitExit(token: Token)
    | ReadFile(token: Token)
    | LookAtFile(session: string, path: string, content: string, token: Token)

  datatype Lock = Free | Held(session: string) | HeldBy(id: nat)

  datatype Caps = Caps(terminal: bool, fsRead: bool, fsWrite: bool, elicitation: bool)

  datatype Wire = Wire(conn: nat, caps: Caps, nextId: nat, sends: map<nat, Outgoing>, waiters: map<nat, Waiter>,
                       outOpen: bool, readerDone: bool, routerDone: bool, callsOpen: bool,
                       heard: seq<Message>, incoming: seq<Arrival>, taken: nat,
                       resolved: seq<Resolution>, prompts: map<nat, string>, lock: Lock,
                       calls: seq<Sending>, handled: nat, tasks: seq<Task>, replies: seq<(Token, Reply)>)

  /** What the router finds: whether the terminal is known, whether the file is in the session's folder. */
  datatype Finds = Finds(known: bool, inside: bool)

  datatype Move =
    | LockPrompts(session: string)
    | Begin(of: Option<string>)
    | Register(id: nat)
    | Post(id: nat)
    | Unregister(id: nat)
    | Commit(id: nat)
    | Hear(message: Message)
    | Drain(order: seq<nat>)
    | Take(finds: Finds)
    | EndRouter
    | StopWriter
    | Finish(task: nat, before: Option<string>)
    | Handle
    | DropCalls

  function Fresh(conn: nat, caps: Caps): Wire {
    Wire(conn, caps, 1, map[], map[], true, false, false, true, [], [], 0, [], map[], Free, [], 0, [], [])
  }

  function ClosedError(): TurnResult { TurnFailed("The connection closed") }

  /** `order` lists the waiters, each once. */
  ghost predicate OrderOf(order: seq<nat>, waiters: map<nat, Waiter>) {
    && (forall i :: 0 <= i < |order| ==> order[i] in waiters)
    && (forall id :: id in waiters ==> id in order)
    && (forall i, j :: 0 <= i < j < |order| ==> order[i] != order[j])
  }

  /** When a move can happen: each task goes on when it is its turn, the lock is free for whoever
      needs it, and channels and files behave as the flags say. */
  ghost predicate Can(w: Wire, m: Move) {
    match m
    case LockPrompts(_) => w.lock.Free?
    case Begin(session) => session.Some? ==> w.lock == Held(session.value)
    case Register(id) => id in w.sends && w.sends[id].stage.Begun?
    case Post(id) => id in w.sends && w.sends[id].stage.Registered?
    case Unregister(id) => id in w.sends && w.sends[id].stage.Failing?
    case Commit(id) => id in w.sends && w.sends[id].stage.Sent? && w.sends[id].session.Some?
    case Hear(_) => !w.readerDone
    case Drain(order) => !w.readerDone && OrderOf(order, w.waiters)
    case Take(_) => w.taken < |w.incoming| && (w.incoming[w.taken].item.Response? ==> w.lock.Free?)
    case EndRouter => w.readerDone && w.taken == |w.incoming| && !w.routerDone
    case StopWriter => w.outOpen
    case Finish(k, _) => k < |w.tasks|
    case Handle => w.callsOpen && w.handled < |w.calls|
    case DropCalls => w.callsOpen
  }

  // ----- The sender: `request_value`, `send_ordered`, `start_prompt` -----

  function SetStage(w: Wire, id: nat, stage: Stage): Wire
    requires id in w.sends
  {
    w.(sends := w.sends[id := w.sends[id].(stage := stage)])
  }

  function BeginRequest(w: Wire, session: Option<string>): Wire {
    w.(nextId := w.nextId + 1, sends := w.sends[w.nextId := Outgoing(session, Begun, 0, false)],
       lock := if session.Some? then HeldBy(w.nextId) else w.lock)
  }

  function RegisterWaiter(w: Wire, id: nat): Wire
    requires id in w.sends
  {
    var s := w.sends[id];
    w.(waiters := w.waiters[id := if s.session.Some? then Ordered else Future],
       sends := w.sends[id := s.(stage := Registered, since := |w.heard|, early := !w.readerDone)])
  }

  function UnregisterWaiter(w: Wire, id: nat): Wire
    requires id in w.sends
  {
    SetStage(w, id, Returned(false)).(waiters := w.waiters - {id}, lock := if w.sends[id].session.Some? then Free else w.lock)
  }

  function CommitPrompt(w: Wire, id: nat): Wire
    requires id in w.sends && w.sends[id].session.Some?
  {
    SetStage(w, id, Returned(true)).(prompts := w.prompts[id := w.sends[id].session.value], lock := Free)
  }

  // ----- The reader: `dispatch_one` and the drain -----

  /** The waiter of `id`, if there is one, gets its answer. */
  function Resolve(w: Wire, id: nat, source: nat, result: TurnResult): Wire {
    if id !in w.waiters then w
    else
      var d := w.(waiters := w.waiters - {id}, resolved := w.resolved + [Resolution(id, source, result)]);
      if w.waiters[id].Ordered? then d.(incoming := d.incoming + [Arrival(source, Response(id, result))]) else d
  }

  function HearOne(w: Wire, message: Message): Wire {
    var at := |w.heard|;
    var d := w.(heard := w.heard + [message]);
    match message
    case Answer(id, result) => Resolve(d, id, at, result)
    case Ask(request) => d.(incoming := d.incoming + [Arrival(at, Request(Token(w.conn, at), request))])
    case Note(note) => d.(incoming := d.incoming + [Arrival(at, Notice(note))])
    case Noise => d
  }

  function DrainFrom(w: Wire, order: seq<nat>): Wire
    decreases |order|
  {
    if order == [] then w else DrainFrom(Resolve(w, order[0], |w.heard|, ClosedError()), order[1..])
  }

  // ----- The router -----

  predicate Allows(caps: Caps, request: Request) {
    match request
    case ReadTextFile(_) => caps.fsRead
    case WriteTextFile(_, _) => caps.fsWrite
    case CreateElicitation(_, _) => caps.elicitation
    case CreateTerminal(_) => caps.terminal
    case TerminalOutput => caps.terminal
    case TerminalWait => caps.terminal
    case TerminalKill => caps.terminal
    case TerminalRelease => caps.terminal
    case _ => true
  }

  function DropReply(call: ClientCall): seq<(Token, Reply)> {
    match AgentRuns.TokenOf(call) { case Some(token) => [(token, Unanswered)] case None => [] }
  }

  /** A call to the app; when nobody listens any more, it is dropped and its request answers itself. */
  function Forward(w: Wire, arrival: nat, source: nat, call: ClientCall): Wire {
    w.(calls := w.calls + [Sending(arrival, source, call)],
       replies := w.replies + if w.callsOpen then [] else DropReply(call))
  }

  function Reply1(w: Wire, token: Token, reply: Reply): Wire {
    w.(replies := w.replies + [(token, reply)])
  }

  function Spawn(w: Wire, task: Task): Wire { w.(tasks := w.tasks + [task]) }

  /** Where a request goes: an answer, a task, or the app. */
  datatype Route = Answered(reply: Reply) | Work(task: Task) | ToApp(call: ClientCall)

  function RouteOf(caps: Caps, request: Request, token: Token, finds: Finds): Route {
    if !Allows(caps, request) then Answered(MethodNotFound)
    else match request
      case RequestPermission(ask) =>
        if ask.None? then Answered(InvalidParams) else ToApp(PermissionCall(ask.value.0, ask.value.1, token))
      case CreateElicitation(question, of) => ToApp(ElicitationCall(question, of, token))
      case CreateTerminal(run) =>
        if run.None? then Answered(InvalidParams) else ToApp(TerminalCall(run.value.0, run.value.1, token))
      case TerminalOutput => Answered(if finds.known then Served else NoTerminal)
      case TerminalWait => if finds.known then Work(WaitExit(token)) else Answered(NoTerminal)
      case TerminalKill => Answered(if finds.known then Served else NoTerminal)
      case TerminalRelease => Answered(Served)
      case ReadTextFile(read) =>
        if read.None? then Answered(InvalidParams)
        else if finds.inside then Work(ReadFile(token))
        else ToApp(ReadCall(read.value.0, read.value.1, token))
      case WriteTextFile(write, fits) =>
        if write.None? || !fits then Answered(InvalidParams)
        else Work(LookAtFile(write.value.0, write.value.1, write.value.2, token))
      case OtherRequest => Answered(MethodNotFound)
  }

  function Follow(w: Wire, arrival: nat, source: nat, token: Token, route: Route): Wire {
    match route
    case Answered(reply) => Reply1(w, token, reply)
    case Work(task) => Spawn(w, task)
    case ToApp(call) => Forward(w, arrival, source, call)
  }

  function TakeOne(w: Wire, finds: Finds): Wire
    requires w.taken < |w.incoming|
  {
    var at, a := w.taken, w.incoming[w.taken];
    var d := w.(taken := w.taken + 1);
    match a.item
    case Response(id, result) =>
      if id !in w.prompts then d
      else Forward(d.(prompts := w.prompts - {id}), at, a.source, TurnEndedCall(w.prompts[id], id, result))
    case Notice(SessionUpdate(session, u)) => Forward(d, at, a.source, UpdateCall(session, u))
    case Notice(ElicitationDone(id)) => Forward(d, at, a.source, ElicitationComplete(id))
    case Notice(OtherNote) => d
    case Request(token, request) => Follow(d, at, a.source, token, RouteOf(w.caps, request, token, finds))
  }

  /** What a task does when it is done. */
  function Done(task: Task, before: Option<string>): Route {
    match task
    case WaitExit(_) => Answered(Served)
    case ReadFile(_) => Answered(Served)
    case LookAtFile(session, path, content, token) => ToApp(WriteCall(session, path, before, content, token))
  }

  function FinishTask(w: Wire, k: nat, before: Option<string>): Wire
    requires k < |w.tasks|
  {
    var task := w.tasks[k];
    Follow(w.(tasks := w.tasks[..k] + w.tasks[k + 1..]), task.token.serial, task.token.serial, task.token, Done(task, before))
  }

  function DropAll(calls: seq<Sending>): seq<(Token, Reply)> {
    if calls == [] then [] else DropAll(calls[..|calls| - 1]) + DropReply(calls[|calls| - 1].call)
  }

  // ----- Any move -----

  ghost function Go(w: Wire, m: Move): Wire
    requires Can(w, m)
  {
    match m
    case LockPrompts(session) => w.(lock := Held(session))
    case Begin(session) => BeginRequest(w, session)
    case Register(id) => RegisterWaiter(w, id)
    case Post(id) => SetStage(w, id, if w.outOpen then Sent else Failing)
    case Unregister(id) => UnregisterWaiter(w, id)
    case Commit(id) => CommitPrompt(w, id)
    case Hear(message) => HearOne(w, message)
    case Drain(order) => DrainFrom(w, order).(readerDone := true)
    case Take(finds) => TakeOne(w, finds)
    case EndRouter => Forward(w, |w.incoming|, |w.heard|, ClosedCall).(routerDone := true)
    case StopWriter => w.(outOpen := false)
    case Finish(k, before) => FinishTask(w, k, before)
    case Handle => w.(handled := w.handled + 1)
    case DropCalls => w.(callsOpen := false,
                         replies := w.replies + if w.handled <= |w.calls| then DropAll(w.calls[w.handled..]) else [])
  }

  /** The moves can happen one after the other and lead from `w` to `d`. */
  ghost predicate Path(w: Wire, ms: seq<Move>, d: Wire)
    decreases |ms|
  {
    if ms == [] then w == d else Can(w, ms[0]) && Path(Go(w, ms[0]), ms[1..], d)
  }

  ghost predicate Reachable(w: Wire) {
    exists ms :: Path(Fresh(w.conn, w.caps), ms, w)
  }

  ghost predicate Keeps(inv: Wire -> bool) {
    forall w, m :: inv(w) && Can(w, m) ==> inv(Go(w, m))
  }

  lemma {:induction false} PathKeeps(inv: Wire -> bool, w: Wire, ms: seq<Move>, d: Wire)
    requires Keeps(inv) && inv(w) && Path(w, ms, d)
    ensures inv(d)
    decreases |ms|
  {
    hide Go, Can;
    if ms != [] {
      PathKeeps(inv, Go(w, ms[0]), ms[1..], d);
    }
  }

  lemma Holds(inv: Wire -> bool, w: Wire)
    requires Keeps(inv) && Reachable(w) && inv(Fresh(w.conn, w.caps))
    ensures inv(w)
  {
    hide Path, Keeps;
    var ms :| Path(Fresh(w.conn, w.caps), ms, w);
    PathKeeps(inv, Fresh(w.conn, w.caps), ms, w);
  }
}
