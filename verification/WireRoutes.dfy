/** Where each message of an agent goes, step by step and over every path. */
module WireRoutes {
  import opened Wrappers
  import opened AgentTypes
  import opened Wires
  import AgentRuns
  import WireOut
  import Transcripts

  // ----- Plain words -----

  /** The next arrival is taken, and nothing else happens. */
  function Taking(w: Wire): Wire { w.(taken := w.taken + 1) }

  function Telling(w: Wire, token: Token, reply: Reply): Wire { w.(replies := w.replies + [(token, reply)]) }

  function Working(w: Wire, task: Task): Wire { w.(tasks := w.tasks + [task]) }

  /** The app gets a call about the arrival; when it does not listen any more, the call's request is told
      that nothing answered. */
  function Calling(w: Wire, source: nat, call: ClientCall, token: Option<Token>): Wire {
    w.(taken := w.taken + 1, calls := w.calls + [Sending(w.taken, source, call)],
       replies := w.replies + if w.callsOpen || token.None? then [] else [(token.value, Unanswered)])
  }

  predicate Arrives(w: Wire, item: Item) { w.taken < |w.incoming| && w.incoming[w.taken].item == item }

  // ----- One message -----

  /** What the agent asks of the user: the app gets it, when it was understood and the agent may ask. */
  lemma AsksExactly(w: Wire, finds: Finds, token: Token, session: string, p: PermissionRequest, r: TerminalRequest,
                    question: Option<Question>, of: Option<string>)
    requires Can(w, Take(finds))
    ensures var d, source := Go(w, Take(finds)), w.incoming[w.taken].source;
            && (Arrives(w, Item.Request(token, RequestPermission(Some((session, p))))) ==>
                  d == Calling(w, source, PermissionCall(session, p, token), Some(token)))
            && (Arrives(w, Item.Request(token, RequestPermission(None))) ==> d == Telling(Taking(w), token, InvalidParams))
            && (Arrives(w, Item.Request(token, CreateElicitation(question, of))) ==>
                  d == if w.caps.elicitation then Calling(w, source, ElicitationCall(question, of, token), Some(token))
                       else Telling(Taking(w), token, MethodNotFound))
            && (Arrives(w, Item.Request(token, CreateTerminal(Some((session, r))))) ==>
                  d == if w.caps.terminal then Calling(w, source, TerminalCall(session, r, token), Some(token))
                       else Telling(Taking(w), token, MethodNotFound))
            && (Arrives(w, Item.Request(token, CreateTerminal(None))) ==>
                  d == Telling(Taking(w), token, if w.caps.terminal then InvalidParams else MethodNotFound))
            && (Arrives(w, Item.Request(token, OtherRequest)) ==> d == Telling(Taking(w), token, MethodNotFound))
  {
    hide Go, Calling, Telling, Taking;
    match w.incoming[w.taken].item
    case Response(_, _) =>
    case Notice(_) =>
    case Request(of, request) =>
      match request {
        case RequestPermission(ask) => PermissionTaken(w, finds, of, ask);
        case CreateElicitation(asked, session) => ElicitationTaken(w, finds, of, asked, session);
        case CreateTerminal(run) => CommandTaken(w, finds, of, run);
        case OtherRequest => OtherTaken(w, finds, of);
        case _ =>
      }
  }

  lemma PermissionTaken(w: Wire, finds: Finds, token: Token, ask: Option<(string, PermissionRequest)>)
    requires Can(w, Take(finds)) && Arrives(w, Item.Request(token, RequestPermission(ask)))
    ensures Go(w, Take(finds)) == match ask
                                  case Some(of) => Calling(w, w.incoming[w.taken].source, PermissionCall(of.0, of.1, token), Some(token))
                                  case None => Telling(Taking(w), token, InvalidParams)
  {
  }

  lemma ElicitationTaken(w: Wire, finds: Finds, token: Token, question: Option<Question>, of: Option<string>)
    requires Can(w, Take(finds)) && Arrives(w, Item.Request(token, CreateElicitation(question, of)))
    ensures Go(w, Take(finds)) == if w.caps.elicitation
                                  then Calling(w, w.incoming[w.taken].source, ElicitationCall(question, of, token), Some(token))
                                  else Telling(Taking(w), token, MethodNotFound)
  {
  }

  lemma CommandTaken(w: Wire, finds: Finds, token: Token, run: Option<(string, TerminalRequest)>)
    requires Can(w, Take(finds)) && Arrives(w, Item.Request(token, CreateTerminal(run)))
    ensures Go(w, Take(finds)) == if !w.caps.terminal then Telling(Taking(w), token, MethodNotFound)
                                  else match run
                                    case Some(of) => Calling(w, w.incoming[w.taken].source, TerminalCall(of.0, of.1, token), Some(token))
                                    case None => Telling(Taking(w), token, InvalidParams)
  {
  }

  lemma OtherTaken(w: Wire, finds: Finds, token: Token)
    requires Can(w, Take(finds)) && Arrives(w, Item.Request(token, OtherRequest))
    ensures Go(w, Take(finds)) == Telling(Taking(w), token, MethodNotFound)
  {
  }

  /** What the agent asks about its commands is answered at once, or when the command ends. */
  lemma TerminalsExactly(w: Wire, finds: Finds, token: Token)
    requires Can(w, Take(finds))
    ensures var d, e := Go(w, Take(finds)), Taking(w);
            && (Arrives(w, Item.Request(token, TerminalOutput)) || Arrives(w, Item.Request(token, TerminalKill)) ==>
                  d == Telling(e, token, if !w.caps.terminal then MethodNotFound else if finds.known then Served else NoTerminal))
            && (Arrives(w, Item.Request(token, TerminalWait)) ==>
                  d == if w.caps.terminal && finds.known then Working(e, WaitExit(token))
                       else Telling(e, token, if w.caps.terminal then NoTerminal else MethodNotFound))
            && (Arrives(w, Item.Request(token, TerminalRelease)) ==> d == Telling(e, token, if w.caps.terminal then Served else MethodNotFound))
  {
  }

  /** A file in the session's folder is read at once; any other is asked about. A file to write is looked at
      first, and then always asked about. */
  lemma FilesExactly(w: Wire, finds: Finds, token: Token, session: string, path: string, content: string, fits: bool)
    requires Can(w, Take(finds))
    ensures var d, e, source := Go(w, Take(finds)), Taking(w), w.incoming[w.taken].source;
            && (Arrives(w, Item.Request(token, ReadTextFile(Some((session, path))))) ==>
                  d == if !w.caps.fsRead then Telling(e, token, MethodNotFound)
                       else if finds.inside then Working(e, ReadFile(token))
                       else Calling(w, source, ReadCall(session, path, token), Some(token)))
            && (Arrives(w, Item.Request(token, ReadTextFile(None))) ==>
                  d == Telling(e, token, if w.caps.fsRead then InvalidParams else MethodNotFound))
            && (Arrives(w, Item.Request(token, WriteTextFile(Some((session, path, content)), fits))) ==>
                  d == if w.caps.fsWrite && fits then Working(e, LookAtFile(session, path, content, token))
                       else Telling(e, token, if w.caps.fsWrite then InvalidParams else MethodNotFound))
            && (Arrives(w, Item.Request(token, WriteTextFile(None, fits))) ==>
                  d == Telling(e, token, if w.caps.fsWrite then InvalidParams else MethodNotFound))
  {
  }

  /** Updates, finished pages and ends of running prompts are calls; nothing else is. */
  lemma NoticesExactly(w: Wire, finds: Finds, id: nat, result: TurnResult)
    requires Can(w, Take(finds))
    ensures var d, source := Go(w, Take(finds)), w.incoming[w.taken].source;
            && (forall session, u :: Arrives(w, Notice(SessionUpdate(session, u))) ==> d == Calling(w, source, UpdateCall(session, u), None))
            && (forall elicitation :: Arrives(w, Notice(ElicitationDone(elicitation))) ==>
                  d == Calling(w, source, ElicitationComplete(elicitation), None))
            && (Arrives(w, Notice(OtherNote)) ==> d == Taking(w))
            && (Arrives(w, Response(id, result)) ==>
                  d == if id in w.prompts
                       then Calling(w, source, TurnEndedCall(w.prompts[id], id, result), None).(prompts := w.prompts - {id})
                       else Taking(w))
  {
    hide Go, Calling, Taking;
    match w.incoming[w.taken].item
    case Response(at, end) => EndTaken(w, finds, at, end);
    case Request(_, _) =>
    case Notice(SessionUpdate(session, u)) => UpdateTaken(w, finds, session, u);
    case Notice(ElicitationDone(elicitation)) => PageTaken(w, finds, elicitation);
    case Notice(OtherNote) => NoteTaken(w, finds);
  }

  lemma EndTaken(w: Wire, finds: Finds, id: nat, result: TurnResult)
    requires Can(w, Take(finds)) && Arrives(w, Response(id, result))
    ensures var d, source := Go(w, Take(finds)), w.incoming[w.taken].source;
            d == if id in w.prompts
                 then Calling(w, source, TurnEndedCall(w.prompts[id], id, result), None).(prompts := w.prompts - {id})
                 else Taking(w)
  {
    assert w.replies + [] == w.replies;
  }

  lemma UpdateTaken(w: Wire, finds: Finds, session: string, u: Transcripts.Update)
    requires Can(w, Take(finds)) && Arrives(w, Notice(SessionUpdate(session, u)))
    ensures Go(w, Take(finds)) == Calling(w, w.incoming[w.taken].source, UpdateCall(session, u), None)
  {
    assert w.replies + [] == w.replies;
  }

  lemma PageTaken(w: Wire, finds: Finds, elicitation: string)
    requires Can(w, Take(finds)) && Arrives(w, Notice(ElicitationDone(elicitation)))
    ensures Go(w, Take(finds)) == Calling(w, w.incoming[w.taken].source, ElicitationComplete(elicitation), None)
  {
    assert w.replies + [] == w.replies;
  }

  lemma NoteTaken(w: Wire, finds: Finds)
    requires Can(w, Take(finds)) && Arrives(w, Notice(OtherNote))
    ensures Go(w, Take(finds)) == Taking(w)
  {
  }

  /** Work that is done is told to its request; a file to write that was looked at is asked about, with
      what was found. */
  lemma WorkExactly(w: Wire, k: nat, before: Option<string>)
    requires Can(w, Finish(k, before))
    ensures var d, task, e := Go(w, Finish(k, before)), w.tasks[k], w.(tasks := w.tasks[..k] + w.tasks[k + 1..]);
            match task
            case WaitExit(token) => d == Telling(e, token, Served)
            case ReadFile(token) => d == Telling(e, token, Served)
            case LookAtFile(session, path, content, token) =>
              d == e.(calls := e.calls + [Sending(token.serial, token.serial, WriteCall(session, path, before, content, token))],
                      replies := e.replies + if e.callsOpen then [] else [(token, Unanswered)])
  {
  }

  lemma {:induction false} DropExactly(calls: seq<Sending>)
    ensures forall token, reply ::
              (token, reply) in DropAll(calls) <==>
              reply == Unanswered && exists k :: 0 <= k < |calls| && AgentRuns.TokenOf(calls[k].call) == Some(token)
  {
    hide AgentRuns.TokenOf;
    if calls != [] {
      var front, last := calls[..|calls| - 1], calls[|calls| - 1];
      DropExactly(front);
      forall token, reply
        ensures (token, reply) in DropAll(calls) <==>
                reply == Unanswered && exists k :: 0 <= k < |calls| && AgentRuns.TokenOf(calls[k].call) == Some(token)
      {
        if (token, reply) in DropAll(front) {
          var k :| 0 <= k < |front| && AgentRuns.TokenOf(front[k].call) == Some(token);
          assert calls[k] == front[k];
        }
        if k :| 0 <= k < |calls| && AgentRuns.TokenOf(calls[k].call) == Some(token) {
          assert k < |front| ==> calls[k] == front[k];
        }
      }
    }
  }

  /** When the app stops listening, exactly the requests of the calls it has not handled are told that
      nothing answered. */
  lemma AppGoneExactly(w: Wire)
    requires Can(w, DropCalls) && w.handled <= |w.calls|
    ensures var d := Go(w, DropCalls);
            && !d.callsOpen && d == w.(callsOpen := false, replies := d.replies) && w.replies <= d.replies
            && forall token, reply ::
                 (token, reply) in d.replies[|w.replies|..] <==>
                 reply == Unanswered && exists k :: w.handled <= k < |w.calls| && AgentRuns.TokenOf(w.calls[k].call) == Some(token)
  {
    hide AgentRuns.TokenOf, DropAll;
    var rest := w.calls[w.handled..];
    var d := Go(w, DropCalls);
    DropExactly(rest);
    assert d.replies[|w.replies|..] == DropAll(rest);
    assert forall k :: w.handled <= k < |w.calls| ==> w.calls[k] == rest[k - w.handled];
    assert forall k :: 0 <= k < |rest| ==> rest[k] == w.calls[k + w.handled];
  }

  // ----- Over every path -----

  /** On the way `ms` from `w` the router took this request as the move at `n`, and found this. */
  ghost predicate Took(w: Wire, ms: seq<Move>, n: nat, v: Wire, token: Token, request: Wires.Request, finds: Finds) {
    n < |ms| && Path(w, ms[..n], v) && ms[n] == Take(finds) && Arrives(v, Item.Request(token, request))
  }

  ghost predicate Call1(w: Wire, call: ClientCall) { exists p :: 0 <= p < |w.calls| && w.calls[p].call == call }

  /** What must have become of a request, whatever happened since. */
  ghost predicate Became(w: Wire, token: Token, request: Wires.Request, finds: Finds) {
    var told := (reply: Reply) => (token, reply) in w.replies;
    match request
    case RequestPermission(ask) => if ask.None? then told(InvalidParams) else Call1(w, PermissionCall(ask.value.0, ask.value.1, token))
    case CreateElicitation(question, of) => if w.caps.elicitation then Call1(w, ElicitationCall(question, of, token)) else told(MethodNotFound)
    case CreateTerminal(run) =>
      if !w.caps.terminal then told(MethodNotFound)
      else if run.None? then told(InvalidParams)
      else Call1(w, TerminalCall(run.value.0, run.value.1, token))
    case TerminalOutput => told(if !w.caps.terminal then MethodNotFound else if finds.known then Served else NoTerminal)
    case TerminalKill => told(if !w.caps.terminal then MethodNotFound else if finds.known then Served else NoTerminal)
    case TerminalWait =>
      if !w.caps.terminal then told(MethodNotFound)
      else if !finds.known then told(NoTerminal)
      else WaitExit(token) in w.tasks || told(Served)
    case TerminalRelease => told(if w.caps.terminal then Served else MethodNotFound)
    case ReadTextFile(read) =>
      if !w.caps.fsRead then told(MethodNotFound)
      else if read.None? then told(InvalidParams)
      else if finds.inside then ReadFile(token) in w.tasks || told(Served)
      else Call1(w, ReadCall(read.value.0, read.value.1, token))
    case WriteTextFile(write, fits) =>
      if !w.caps.fsWrite then told(MethodNotFound)
      else if write.None? || !fits then told(InvalidParams)
      else
        || LookAtFile(write.value.0, write.value.1, write.value.2, token) in w.tasks
        || exists before :: Call1(w, WriteCall(write.value.0, write.value.1, before, write.value.2, token))
    case OtherRequest => told(MethodNotFound)
  }

  lemma Tellings(w: Wire, token: Token, reply: Reply)
    ensures (token, reply) in Telling(w, token, reply).replies
  {
    assert Telling(w, token, reply).replies[|w.replies|] == (token, reply);
  }

  lemma Workings(w: Wire, task: Task)
    ensures task in Working(w, task).tasks
  {
    assert Working(w, task).tasks[|w.tasks|] == task;
  }

  lemma Callings(w: Wire, source: nat, call: ClientCall, token: Option<Token>)
    ensures Call1(Calling(w, source, call, token), call) && Calling(w, source, call, token).caps == w.caps
  {
    assert Calling(w, source, call, token).calls[|w.calls|].call == call;
  }

  lemma TakeBecomes(w: Wire, finds: Finds, token: Token, request: Wires.Request)
    requires Can(w, Take(finds)) && Arrives(w, Item.Request(token, request))
    ensures Became(Go(w, Take(finds)), token, request, finds)
  {
    hide Go, Can, Telling, Working, Calling, Call1;
    Tells(w, token);
    match request
    case ReadTextFile(read) => ReadBecomes(w, finds, token, request);
    case WriteTextFile(write, fits) => WriteBecomes(w, finds, token, request);
    case TerminalOutput => TerminalsExactly(w, finds, token);
    case TerminalKill => TerminalsExactly(w, finds, token);
    case TerminalWait =>
      TerminalsExactly(w, finds, token);
      Workings(Taking(w), WaitExit(token));
    case TerminalRelease => TerminalsExactly(w, finds, token);
    case _ => AskBecomes(w, finds, token, request);
  }

  lemma Tells(w: Wire, token: Token)
    ensures forall reply :: (token, reply) in Telling(Taking(w), token, reply).replies && Telling(Taking(w), token, reply).caps == w.caps
    ensures forall task :: Working(Taking(w), task).caps == w.caps
  {
    forall reply ensures (token, reply) in Telling(Taking(w), token, reply).replies {
      Tellings(Taking(w), token, reply);
    }
  }

  lemma ReadBecomes(w: Wire, finds: Finds, token: Token, request: Wires.Request)
    requires Can(w, Take(finds)) && Arrives(w, Item.Request(token, request)) && request.ReadTextFile?
    ensures Became(Go(w, Take(finds)), token, request, finds)
  {
    hide Go, Can, Telling, Working, Calling, Call1;
    Tells(w, token);
    var (session, path) := if request.read.Some? then request.read.value else ("", "");
    FilesExactly(w, finds, token, session, path, "", true);
    Workings(Taking(w), ReadFile(token));
    Callings(w, w.incoming[w.taken].source, ReadCall(session, path, token), Some(token));
  }

  lemma WriteBecomes(w: Wire, finds: Finds, token: Token, request: Wires.Request)
    requires Can(w, Take(finds)) && Arrives(w, Item.Request(token, request)) && request.WriteTextFile?
    ensures Became(Go(w, Take(finds)), token, request, finds)
  {
    hide Go, Can, Telling, Working, Calling, Call1;
    Tells(w, token);
    var (session, path, content) := if request.write.Some? then request.write.value else ("", "", "");
    FilesExactly(w, finds, token, session, path, content, request.fits);
    Workings(Taking(w), LookAtFile(session, path, content, token));
  }

  lemma AskBecomes(w: Wire, finds: Finds, token: Token, request: Wires.Request)
    requires Can(w, Take(finds)) && Arrives(w, Item.Request(token, request))
    requires request.RequestPermission? || request.CreateElicitation? || request.CreateTerminal? || request.OtherRequest?
    ensures Became(Go(w, Take(finds)), token, request, finds)
  {
    hide Go, Can, Telling, Working, Calling, Call1;
    Tells(w, token);
    var source := w.incoming[w.taken].source;
    var nobody := PermissionRequest("", None, None, None, None, []);
    var nothing := TerminalRequest("", [], [], None, false);
    match request
    case RequestPermission(ask) =>
      var (session, p) := if ask.Some? then ask.value else ("", nobody);
      AsksExactly(w, finds, token, session, p, nothing, None, None);
      Callings(w, source, PermissionCall(session, p, token), Some(token));
    case CreateElicitation(question, of) =>
      AsksExactly(w, finds, token, "", nobody, nothing, question, of);
      Callings(w, source, ElicitationCall(question, of, token), Some(token));
    case CreateTerminal(run) =>
      var (session, r) := if run.Some? then run.value else ("", nothing);
      AsksExactly(w, finds, token, session, nobody, r, None, None);
      Callings(w, source, TerminalCall(session, r, token), Some(token));
    case OtherRequest =>
      AsksExactly(w, finds, token, "", nobody, nothing, None, None);
  }

  /** Calls and answers stay; work stays until it is done. */
  lemma Grows(w: Wire, m: Move)
    requires Can(w, m)
    ensures var d := Go(w, m);
            && d.caps == w.caps && w.calls <= d.calls && w.replies <= d.replies
            && (forall task :: task in w.tasks ==> task in d.tasks || (m.Finish? && task == w.tasks[m.task]))
  {
    hide TakeOne, FinishTask, DrainFrom, HearOne, DropAll;
    WireOut.SameConn(w, m);
    WireOut.CallsGrow(w, m);
    RepliesGrow(w, m);
    if m.Finish? {
      FinishLeaves(w, m.task, m.before);
    }
  }

  lemma RepliesGrow(w: Wire, m: Move)
    requires Can(w, m)
    ensures w.replies <= Go(w, m).replies
    ensures !m.Finish? ==> w.tasks <= Go(w, m).tasks
  {
    hide DropAll, TakeOne, FinishTask, DrainFrom, HearOne;
    match m
    case Hear(message) => HearSame(w, message);
    case Drain(order) => DrainSame(w, order);
    case Take(finds) => TakeGrows(w, finds);
    case Finish(k, before) => FinishGrows(w, k, before);
    case _ =>
  }

  lemma HearSame(w: Wire, message: Message)
    ensures HearOne(w, message).replies == w.replies && HearOne(w, message).tasks == w.tasks
  {
    match message
    case Answer(_, _) =>
    case Ask(_) =>
    case Note(_) =>
    case Noise =>
  }

  lemma FollowGrows(w: Wire, arrival: nat, source: nat, token: Token, route: Route)
    ensures var d := Follow(w, arrival, source, token, route);
            w.replies <= d.replies && d.tasks == w.tasks + if route.Work? then [route.task] else []
  {
  }

  lemma TakeGrows(w: Wire, finds: Finds)
    requires w.taken < |w.incoming|
    ensures w.replies <= TakeOne(w, finds).replies
    ensures var item := w.incoming[w.taken].item;
            TakeOne(w, finds).tasks
            == w.tasks + if item.Request? && RouteOf(w.caps, item.request, item.token, finds).Work?
                         then [RouteOf(w.caps, item.request, item.token, finds).task] else []
  {
    hide TakeOne, RouteOf;
    if w.incoming[w.taken].item.Request? {
      TakeRequest(w, finds);
    } else {
      TakeOther(w, finds);
    }
  }

  lemma TakeRequest(w: Wire, finds: Finds)
    requires w.taken < |w.incoming| && w.incoming[w.taken].item.Request?
    ensures var item, d := w.incoming[w.taken].item, TakeOne(w, finds);
            var route := RouteOf(w.caps, item.request, item.token, finds);
            w.replies <= d.replies && d.tasks == w.tasks + if route.Work? then [route.task] else []
  {
    hide Follow, RouteOf;
    var item := w.incoming[w.taken].item;
    FollowGrows(w.(taken := w.taken + 1), w.taken, w.incoming[w.taken].source, item.token, RouteOf(w.caps, item.request, item.token, finds));
  }

  lemma TakeOther(w: Wire, finds: Finds)
    requires w.taken < |w.incoming| && !w.incoming[w.taken].item.Request?
    ensures w.replies <= TakeOne(w, finds).replies && TakeOne(w, finds).tasks == w.tasks + []
  {
    hide Follow, RouteOf, Forward;
    var at, a, d := w.taken, w.incoming[w.taken], w.(taken := w.taken + 1);
    match a.item
    case Response(id, result) =>
      if id in w.prompts { ForwardGrows(d.(prompts := w.prompts - {id}), at, a.source, TurnEndedCall(w.prompts[id], id, result)); }
    case Notice(SessionUpdate(session, u)) => ForwardGrows(d, at, a.source, UpdateCall(session, u));
    case Notice(ElicitationDone(id)) => ForwardGrows(d, at, a.source, ElicitationComplete(id));
    case Notice(OtherNote) =>
  }

  lemma ForwardGrows(w: Wire, arrival: nat, source: nat, call: ClientCall)
    ensures var d := Forward(w, arrival, source, call); w.replies <= d.replies && d.tasks == w.tasks
  {
  }

  lemma FinishGrows(w: Wire, k: nat, before: Option<string>)
    requires k < |w.tasks|
    ensures w.replies <= FinishTask(w, k, before).replies
    ensures forall task :: task in FinishTask(w, k, before).tasks ==> task in w.tasks
  {
    hide Follow, Done;
    var task, e := w.tasks[k], w.(tasks := w.tasks[..k] + w.tasks[k + 1..]);
    FollowGrows(e, task.token.serial, task.token.serial, task.token, Done(task, before));
    DoneIsNoWork(task, before);
  }

  lemma DoneIsNoWork(task: Task, before: Option<string>)
    ensures !Done(task, before).Work?
  {
  }

  lemma {:induction false} DrainSame(w: Wire, order: seq<nat>)
    ensures DrainFrom(w, order).replies == w.replies && DrainFrom(w, order).tasks == w.tasks
    decreases |order|
  {
    if order != [] {
      DrainSame(Resolve(w, order[0], |w.heard|, ClosedError()), order[1..]);
    }
  }

  lemma FinishLeaves(w: Wire, k: nat, before: Option<string>)
    requires k < |w.tasks|
    ensures forall task :: task in w.tasks ==> task in FinishTask(w, k, before).tasks || task == w.tasks[k]
  {
    var d := FinishTask(w, k, before);
    assert d.tasks == w.tasks[..k] + w.tasks[k + 1..];
    forall task | task in w.tasks && task != w.tasks[k] ensures task in d.tasks {
      var i :| 0 <= i < |w.tasks| && w.tasks[i] == task;
      assert d.tasks[if i < k then i else i - 1] == task;
    }
  }

  lemma CallStays(w: Wire, d: Wire, call: ClientCall)
    requires Call1(w, call) && w.calls <= d.calls
    ensures Call1(d, call)
  {
    var p :| 0 <= p < |w.calls| && w.calls[p].call == call;
    assert d.calls[p] == w.calls[p];
  }

  /** What became of a request stays so. */
  lemma BecameStays(w: Wire, m: Move, token: Token, request: Wires.Request, finds: Finds)
    requires Can(w, m) && Became(w, token, request, finds)
    ensures Became(Go(w, m), token, request, finds)
  {
    hide Go, Can, Call1;
    var d := Go(w, m);
    Grows(w, m);
    forall call | Call1(w, call) ensures Call1(d, call) {
      CallStays(w, d, call);
    }
    assert forall reply :: (token, reply) in w.replies ==> (token, reply) in d.replies;
    if m.Finish? {
      DoneBecomes(w, m.task, m.before);
    }
  }

  lemma DoneBecomes(w: Wire, k: nat, before: Option<string>)
    requires Can(w, Finish(k, before))
    ensures var d, task := Go(w, Finish(k, before)), w.tasks[k];
            match task
            case WaitExit(token) => (token, Served) in d.replies
            case ReadFile(token) => (token, Served) in d.replies
            case LookAtFile(session, path, content, token) => Call1(d, WriteCall(session, path, before, content, token))
  {
    hide Go;
    var d, task := Go(w, Finish(k, before)), w.tasks[k];
    WorkExactly(w, k, before);
    match task
    case WaitExit(token) => Tellings(w.(tasks := w.tasks[..k] + w.tasks[k + 1..]), token, Served);
    case ReadFile(token) => Tellings(w.(tasks := w.tasks[..k] + w.tasks[k + 1..]), token, Served);
    case LookAtFile(session, path, content, token) => assert d.calls[|w.calls|].call == WriteCall(session, path, before, content, token);
  }

  lemma {:induction false} PathBecame(w: Wire, ms: seq<Move>, d: Wire, token: Token, request: Wires.Request, finds: Finds)
    requires Path(w, ms, d) && Became(w, token, request, finds)
    ensures Became(d, token, request, finds)
    decreases |ms|
  {
    hide Go, Can, Became;
    if ms != [] {
      BecameStays(w, ms[0], token, request, finds);
      PathBecame(Go(w, ms[0]), ms[1..], d, token, request, finds);
    }
  }

  lemma {:induction false} PathSplits(w: Wire, ms: seq<Move>, d: Wire, n: nat, v: Wire)
    requires n < |ms| && Path(w, ms, d) && Path(w, ms[..n], v)
    ensures Can(v, ms[n]) && Path(Go(v, ms[n]), ms[n + 1..], d)
    decreases n
  {
    hide Go, Can;
    if n > 0 {
      assert ms[..n][0] == ms[0] && ms[..n][1..] == ms[1..][..n - 1];
      PathSplits(Go(w, ms[0]), ms[1..], d, n - 1, v);
      assert ms[1..][n - 1] == ms[n] && ms[1..][n..] == ms[n + 1..];
    }
  }

  /** Over every path: a request that the router took has become what its kind asks for, whatever happened
      since. In particular every understood and allowed read outside the folder, every allowed write that
      fits once it was looked at, and every understood and allowed terminal, permission and elicitation
      request is among the calls; and a method whose capability is off is told that it is not found. */
  lemma RequestsGoWhereTheyMust(conn: nat, caps: Caps, ms: seq<Move>, w: Wire, n: nat, v: Wire, token: Token, request: Wires.Request,
                                finds: Finds)
    requires Path(Wires.Fresh(conn, caps), ms, w) && Took(Wires.Fresh(conn, caps), ms, n, v, token, request, finds)
    ensures Became(w, token, request, finds)
  {
    hide Path, Go, Can, Became;
    PathSplits(Wires.Fresh(conn, caps), ms, w, n, v);
    TakeBecomes(v, finds, token, request);
    PathBecame(Go(v, ms[n]), ms[n + 1..], w, token, request, finds);
  }

  // ----- Where work comes from -----

  /** The router took this request for a file in the session's folder, which it may read. */
  ghost predicate TookInside(w: Wire, ms: seq<Move>, token: Token) {
    exists n: nat, v, finds, read :: Took(w, ms, n, v, token, ReadTextFile(Some(read)), finds) && finds.inside && v.caps.fsRead
  }

  lemma NewRead(w: Wire, m: Move, token: Token)
    requires Can(w, m) && ReadFile(token) in Go(w, m).tasks && ReadFile(token) !in w.tasks
    ensures m.Take? && m.finds.inside && w.caps.fsRead
    ensures exists read :: Arrives(w, Item.Request(token, ReadTextFile(Some(read))))
  {
    hide DropAll, TakeOne, FinishTask, DrainFrom, HearOne, RouteOf;
    match m
    case Hear(message) => HearSame(w, message);
    case Drain(order) => DrainSame(w, order);
    case Finish(k, before) => FinishGrows(w, k, before);
    case Take(finds) =>
      TakeGrows(w, finds);
      var item := w.incoming[w.taken].item;
      ReadRoute(w.caps, item.request, item.token, finds, token);
      assert Arrives(w, Item.Request(token, ReadTextFile(Some(item.request.read.value))));
    case _ =>
  }

  lemma ReadRoute(caps: Caps, request: Wires.Request, of: Token, finds: Finds, token: Token)
    requires RouteOf(caps, request, of, finds) == Work(ReadFile(token))
    ensures caps.fsRead && finds.inside && of == token && request.ReadTextFile? && request.read.Some?
  {
  }

  lemma {:induction false} ReadComesFrom(w: Wire, ms: seq<Move>, d: Wire, token: Token)
    requires Path(w, ms, d) && ReadFile(token) in d.tasks && ReadFile(token) !in w.tasks
    ensures TookInside(w, ms, token)
    decreases |ms|
  {
    hide Go, Can;
    var e := Go(w, ms[0]);
    if ReadFile(token) in e.tasks {
      NewRead(w, ms[0], token);
      var read :| Arrives(w, Item.Request(token, ReadTextFile(Some(read))));
      assert Path(w, ms[..0], w);
      assert Took(w, ms, 0, w, token, ReadTextFile(Some(read)), ms[0].finds);
    } else {
      ReadComesFrom(e, ms[1..], d, token);
      var n: nat, v, finds, read :| Took(e, ms[1..], n, v, token, ReadTextFile(Some(read)), finds) && finds.inside && v.caps.fsRead;
      assert ms[..n + 1][0] == ms[0] && ms[..n + 1][1..] == ms[1..][..n];
      assert Took(w, ms, n + 1, v, token, ReadTextFile(Some(read)), finds);
    }
  }

  /** Over every path: a file is read without asking only for a request whose file was found in the
      session's folder when the router took it, while reading was allowed. */
  lemma OnlyInsideIsRead(conn: nat, caps: Caps, ms: seq<Move>, w: Wire, token: Token)
    requires Path(Wires.Fresh(conn, caps), ms, w) && ReadFile(token) in w.tasks
    ensures TookInside(Wires.Fresh(conn, caps), ms, token)
  {
    hide Path;
    ReadComesFrom(Wires.Fresh(conn, caps), ms, w, token);
  }
}
