/** Every request of the agent is answered once, by whoever has it last. */
module WireTokens {
  import opened Wrappers
  import opened AgentTypes
  import opened Sums
  import opened Wires
  import WireReplies
  import WireStream
  import WireTurns
  import AgentRuns

  function OfToken(token: Option<Token>): multiset<Token> {
    match token { case Some(t) => multiset{t} case None => multiset{} }
  }

  function OfMessage(m: Message, conn: nat, at: nat): multiset<Token> {
    if m.Ask? then multiset{Token(conn, at)} else multiset{}
  }

  /** The requests among what was heard; a request is named by where it was heard. */
  function Asked(heard: seq<Message>, conn: nat): multiset<Token> {
    if heard == [] then multiset{}
    else Asked(heard[..|heard| - 1], conn) + OfMessage(heard[|heard| - 1], conn, |heard| - 1)
  }

  function OfArrival(a: Arrival): multiset<Token> {
    if a.item.Request? then multiset{a.item.token} else multiset{}
  }

  function OfTask(t: Task): multiset<Token> { multiset{t.token} }

  function OfSending(s: Sending): multiset<Token> { OfToken(AgentRuns.TokenOf(s.call)) }

  function OfReply(r: (Token, Reply)): multiset<Token> { multiset{r.0} }

  function InStream(w: Wire): multiset<Token>
    requires w.taken <= |w.incoming|
  {
    Sum(w.incoming[w.taken..], OfArrival)
  }

  /** With calls: those the app has handled are the app's; the others wait, or were dropped. */
  function ForApp(w: Wire): multiset<Token>
    requires w.handled <= |w.calls|
  {
    Sum(w.calls[..w.handled], OfSending)
  }

  function Unhandled(w: Wire): multiset<Token>
    requires w.handled <= |w.calls|
  {
    if w.callsOpen then Sum(w.calls[w.handled..], OfSending) else multiset{}
  }

  function Answered(w: Wire): multiset<Token> { Sum(w.replies, OfReply) }

  ghost predicate Conserved(w: Wire) {
    && w.taken <= |w.incoming| && w.handled <= |w.calls|
    && Asked(w.heard, w.conn) == InStream(w) + Sum(w.tasks, OfTask) + Unhandled(w) + ForApp(w) + Answered(w)
  }

  // ----- Parts -----

  lemma {:induction false} AskedOnce(heard: seq<Message>, conn: nat)
    ensures forall t :: Asked(heard, conn)[t] <= 1
    ensures forall t :: t in Asked(heard, conn) ==> t.conn == conn && t.serial < |heard|
  {
    if heard != [] {
      AskedOnce(heard[..|heard| - 1], conn);
    }
  }

  lemma HearAsked(heard: seq<Message>, m: Message, conn: nat)
    ensures Asked(heard + [m], conn) == Asked(heard, conn) + OfMessage(m, conn, |heard|)
  {
    assert (heard + [m])[..|heard|] == heard;
  }

  lemma {:induction false} DropAllSum(calls: seq<Sending>)
    ensures Sum(DropAll(calls), OfReply) == Sum(calls, OfSending)
  {
    if calls != [] {
      var last := calls[|calls| - 1];
      DropAllSum(calls[..|calls| - 1]);
      DropSum(last.call);
      SumAppend(DropAll(calls[..|calls| - 1]), DropReply(last.call), OfReply);
    }
  }

  lemma DropSum(call: ClientCall)
    ensures Sum(DropReply(call), OfReply) == OfToken(AgentRuns.TokenOf(call))
  {
    var r := DropReply(call);
    if r != [] {
      SumOne(r[0], OfReply);
      assert r == [r[0]];
    }
  }

  lemma MoreIncoming(w: Wire, more: seq<Arrival>)
    requires w.taken <= |w.incoming|
    ensures Sum((w.incoming + more)[w.taken..], OfArrival) == InStream(w) + Sum(more, OfArrival)
  {
    assert (w.incoming + more)[w.taken..] == w.incoming[w.taken..] + more;
    SumAppend(w.incoming[w.taken..], more, OfArrival);
  }

  lemma TakeFirst(w: Wire)
    requires w.taken < |w.incoming|
    ensures InStream(w) == OfArrival(w.incoming[w.taken]) + Sum(w.incoming[w.taken + 1..], OfArrival)
  {
    var a := w.incoming[w.taken];
    assert w.incoming[w.taken..] == [a] + w.incoming[w.taken + 1..];
    SumAppend([a], w.incoming[w.taken + 1..], OfArrival);
    SumOne(a, OfArrival);
  }

  /** A call is sent on: its request waits for the app, or answers itself. */
  lemma ForwardSum(w: Wire, arrival: nat, source: nat, call: ClientCall)
    requires w.handled <= |w.calls|
    ensures var d := Forward(w, arrival, source, call);
            && Unhandled(d) + Answered(d) == Unhandled(w) + Answered(w) + OfToken(AgentRuns.TokenOf(call))
            && ForApp(d) == ForApp(w)
  {
    hide AgentRuns.TokenOf, DropReply, Sum;
    var d, s := Forward(w, arrival, source, call), Sending(arrival, source, call);
    assert d.calls[..w.handled] == w.calls[..w.handled];
    assert d.calls[w.handled..] == w.calls[w.handled..] + [s];
    SumAppend(w.calls[w.handled..], [s], OfSending);
    SumOne(s, OfSending);
    if w.callsOpen {
      assert d.replies == w.replies;
    } else {
      SumAppend(w.replies, DropReply(call), OfReply);
      DropSum(call);
    }
  }

  lemma Reply1Sum(w: Wire, token: Token, reply: Reply)
    ensures Answered(Reply1(w, token, reply)) == Answered(w) + multiset{token}
  {
    SumAppend(w.replies, [(token, reply)], OfReply);
    SumOne((token, reply), OfReply);
  }

  lemma SpawnSum(w: Wire, task: Task)
    ensures Sum(Spawn(w, task).tasks, OfTask) == Sum(w.tasks, OfTask) + multiset{task.token}
  {
    SumAppend(w.tasks, [task], OfTask);
    SumOne(task, OfTask);
  }

  predicate About(route: Route, token: Token) {
    match route
    case Answered(_) => true
    case Work(task) => task.token == token
    case ToApp(call) => AgentRuns.TokenOf(call) == Some(token)
  }

  /** What has the request next. */
  function Held(w: Wire): multiset<Token>
    requires w.handled <= |w.calls|
  {
    Sum(w.tasks, OfTask) + (Unhandled(w) + Answered(w)) + ForApp(w)
  }

  lemma ReplyHeld(w: Wire, token: Token, reply: Reply)
    requires w.handled <= |w.calls|
    ensures Held(Reply1(w, token, reply)) == Held(w) + multiset{token}
  {
    hide Sum;
    Reply1Sum(w, token, reply);
  }

  lemma SpawnHeld(w: Wire, task: Task)
    requires w.handled <= |w.calls|
    ensures Held(Spawn(w, task)) == Held(w) + multiset{task.token}
  {
    hide Sum;
    SpawnSum(w, task);
  }

  lemma ForwardHeld(w: Wire, arrival: nat, source: nat, call: ClientCall)
    requires w.handled <= |w.calls|
    ensures Held(Forward(w, arrival, source, call)) == Held(w) + OfToken(AgentRuns.TokenOf(call))
  {
    hide Sum, AgentRuns.TokenOf, DropReply, Forward, OfToken;
    ForwardSum(w, arrival, source, call);
    ForwardTasks(w, arrival, source, call);
  }

  lemma FollowSum(w: Wire, arrival: nat, source: nat, token: Token, route: Route)
    requires w.handled <= |w.calls| && About(route, token)
    ensures Held(Follow(w, arrival, source, token, route)) == Held(w) + multiset{token}
  {
    hide Held, AgentRuns.TokenOf, Forward, Reply1, Spawn;
    match route
    case Answered(reply) => ReplyHeld(w, token, reply);
    case Work(task) => SpawnHeld(w, task);
    case ToApp(call) => ForwardHeld(w, arrival, source, call);
  }

  lemma ForwardTasks(w: Wire, arrival: nat, source: nat, call: ClientCall)
    ensures Forward(w, arrival, source, call).tasks == w.tasks && Forward(w, arrival, source, call).handled == w.handled
    ensures w.handled <= |w.calls| ==> w.handled <= |Forward(w, arrival, source, call).calls|
  {
  }

  lemma RouteIsAbout(caps: Caps, request: Request, token: Token, finds: Finds)
    ensures About(RouteOf(caps, request, token, finds), token)
  {
    hide Allows;
  }

  lemma DoneIsAbout(task: Task, before: Option<string>)
    ensures About(Done(task, before), task.token)
  {
  }

  // ----- Moves -----

  /** The parts of `Conserved`. */
  lemma Balance(w: Wire)
    requires w.taken <= |w.incoming| && w.handled <= |w.calls|
    ensures Conserved(w) <==> Asked(w.heard, w.conn) == InStream(w) + Held(w)
  {
    hide Sum, Asked;
    var s, t, u, f, a := InStream(w), Sum(w.tasks, OfTask), Unhandled(w), ForApp(w), Answered(w);
  }

  /** What is held does not depend on the rest. */
  lemma SameHeld(w: Wire, d: Wire)
    requires w.handled <= |w.calls| && d.calls == w.calls && d.handled == w.handled && d.callsOpen == w.callsOpen
    requires d.tasks == w.tasks && d.replies == w.replies
    ensures Held(d) == Held(w)
  {
  }

  /** A call without a request is sent on, or nothing is. */
  lemma TakeQuiet(w: Wire, e: Wire, call: ClientCall)
    requires Conserved(w) && w.taken < |w.incoming| && !w.incoming[w.taken].item.Request?
    requires e == w.(taken := w.taken + 1, prompts := e.prompts) && AgentRuns.TokenOf(call) == None
    ensures Conserved(e) && Conserved(Forward(e, w.taken, w.incoming[w.taken].source, call))
  {
    hide Sum, Asked, Conserved, Forward, Held;
    var source := w.incoming[w.taken].source;
    Bounds(w);
    Balance(w);
    SameHeld(w, e);
    StillBalanced(w, e, multiset{});
    CallConserves(e, w.taken, source, call);
    StillBalanced(w, Forward(e, w.taken, source, call), multiset{});
  }

  lemma TakeRequest(w: Wire, finds: Finds)
    requires Conserved(w) && w.taken < |w.incoming| && w.incoming[w.taken].item.Request?
    ensures Conserved(TakeOne(w, finds))
  {
    hide Sum, Asked, RouteOf, Follow, Conserved, Held;
    var a, e := w.incoming[w.taken], w.(taken := w.taken + 1);
    var route := RouteOf(w.caps, a.item.request, a.item.token, finds);
    Bounds(w);
    Balance(w);
    SameHeld(w, e);
    RouteIsAbout(w.caps, a.item.request, a.item.token, finds);
    FollowSum(e, w.taken, a.source, a.item.token, route);
    WireReplies.FollowLeaves(e, w.taken, a.source, a.item.token, route);
    FollowCounts(e, w.taken, a.source, a.item.token, route);
    StillBalanced(w, TakeOne(w, finds), multiset{a.item.token});
  }

  lemma TakeConserved(w: Wire, finds: Finds)
    requires Conserved(w) && w.taken < |w.incoming|
    ensures Conserved(TakeOne(w, finds))
  {
    hide RouteOf, Follow, Conserved, Forward;
    var a, e := w.incoming[w.taken], w.(taken := w.taken + 1);
    match a.item
    case Response(id, result) =>
      if id in w.prompts {
        TakeQuiet(w, e.(prompts := w.prompts - {id}), TurnEndedCall(w.prompts[id], id, result));
      } else {
        TakeQuiet(w, e, ClosedCall);
      }
    case Notice(SessionUpdate(session, u)) => TakeQuiet(w, e, UpdateCall(session, u));
    case Notice(ElicitationDone(id)) => TakeQuiet(w, e, ElicitationComplete(id));
    case Notice(OtherNote) => TakeQuiet(w, e, ClosedCall);
    case Request(_, _) => TakeRequest(w, finds);
  }

  lemma Bounds(w: Wire)
    requires Conserved(w)
    ensures w.taken <= |w.incoming| && w.handled <= |w.calls|
  {
  }

  lemma FollowCounts(w: Wire, arrival: nat, source: nat, token: Token, route: Route)
    ensures |w.calls| <= |Follow(w, arrival, source, token, route).calls|
  {
  }

  /** A call without a request changes nothing that is held. */
  lemma CallConserves(w: Wire, arrival: nat, source: nat, call: ClientCall)
    requires w.handled <= |w.calls| && AgentRuns.TokenOf(call) == None
    ensures var d := Forward(w, arrival, source, call);
            && Held(d) == Held(w) && d.incoming == w.incoming && d.taken == w.taken && d.heard == w.heard && d.conn == w.conn
            && d.handled == w.handled <= |d.calls|
  {
    hide Sum, DropReply;
    ForwardSum(w, arrival, source, call);
  }

  /** What left the stream is held now. */
  lemma StillBalanced(w: Wire, d: Wire, token: multiset<Token>)
    requires w.taken < |w.incoming| && d.incoming == w.incoming && d.taken == w.taken + 1 && d.heard == w.heard && d.conn == w.conn
    requires w.handled <= |w.calls| && d.handled <= |d.calls|
    requires Asked(w.heard, w.conn) == InStream(w) + Held(w)
    requires OfArrival(w.incoming[w.taken]) == token && Held(d) == Held(w) + token
    ensures Conserved(d)
  {
    hide Sum, Asked, Held, Conserved;
    TakeFirst(w);
    Balance(d);
  }

  lemma FinishConserved(w: Wire, k: nat, before: Option<string>)
    requires Conserved(w) && k < |w.tasks|
    ensures Conserved(FinishTask(w, k, before))
  {
    hide Sum, Asked, Done, Follow, Conserved;
    var d, task := FinishTask(w, k, before), w.tasks[k];
    var e := w.(tasks := w.tasks[..k] + w.tasks[k + 1..]);
    Bounds(w);
    Balance(w);
    SumRemove(w.tasks, k, OfTask);
    DoneIsAbout(task, before);
    FollowSum(e, task.token.serial, task.token.serial, task.token, Done(task, before));
    WireReplies.FollowLeaves(e, task.token.serial, task.token.serial, task.token, Done(task, before));
    FollowCounts(e, task.token.serial, task.token.serial, task.token, Done(task, before));
    assert Held(d) == Held(w);
    Balance(d);
  }

  lemma HandleConserved(w: Wire)
    requires Conserved(w) && w.callsOpen && w.handled < |w.calls|
    ensures Conserved(w.(handled := w.handled + 1))
  {
    hide Sum, Asked;
    var d, s := w.(handled := w.handled + 1), w.calls[w.handled];
    assert w.calls[w.handled..] == [s] + d.calls[d.handled..];
    assert d.calls[..d.handled] == w.calls[..w.handled] + [s];
    SumAppend([s], d.calls[d.handled..], OfSending);
    SumAppend(w.calls[..w.handled], [s], OfSending);
    SumOne(s, OfSending);
  }

  lemma DropConserved(w: Wire)
    requires Conserved(w) && w.callsOpen
    ensures Conserved(w.(callsOpen := false, replies := w.replies + DropAll(w.calls[w.handled..])))
  {
    hide Sum, Asked, DropAll;
    DropAllSum(w.calls[w.handled..]);
    SumAppend(w.replies, DropAll(w.calls[w.handled..]), OfReply);
  }

  lemma EndConserved(w: Wire)
    requires Conserved(w) && Can(w, EndRouter)
    ensures Conserved(Go(w, EndRouter))
  {
    hide Sum, Asked, Conserved;
    Bounds(w);
    Balance(w);
    CallConserves(w, |w.incoming|, |w.heard|, ClosedCall);
    Balance(Go(w, EndRouter));
  }

  lemma HearConserved(w: Wire, message: Message)
    requires Conserved(w)
    ensures Conserved(HearOne(w, message))
  {
    hide Sum, Asked, Held, Conserved, InStream, HearOne;
    var d := HearOne(w, message);
    Bounds(w);
    Balance(w);
    HearAsked(w.heard, message, w.conn);
    WireTurns.HearGrows(w, message);
    SameHeld(w, d);
    StreamGrows(w, d, message);
    Balance(d);
  }

  /** What a message adds to the stream. */
  lemma HearAdds(w: Wire, message: Message) returns (more: seq<Arrival>)
    ensures |more| <= 1 && HearOne(w, message).incoming == w.incoming + more
    ensures OfMessage(message, w.conn, |w.heard|) == if more == [] then multiset{} else OfArrival(more[0])
  {
    var at := |w.heard|;
    match message
    case Answer(id, result) =>
      more := if id in w.waiters && w.waiters[id].Ordered? then [Arrival(at, Response(id, result))] else [];
    case Ask(request) => more := [Arrival(at, Item.Request(Token(w.conn, at), request))];
    case Note(note) => more := [Arrival(at, Notice(note))];
    case Noise => more := [];
  }

  /** A request that is heard is on the stream. */
  lemma StreamGrows(w: Wire, d: Wire, message: Message)
    requires w.taken <= |w.incoming| && d == HearOne(w, message)
    ensures d.taken <= |d.incoming| && InStream(d) == InStream(w) + OfMessage(message, w.conn, |w.heard|)
  {
    hide Sum, HearOne, OfArrival, OfMessage;
    var more := HearAdds(w, message);
    WireTurns.HearGrows(w, message);
    MoreIncoming(w, more);
    OneMore(more);
  }

  lemma OneMore(more: seq<Arrival>)
    requires |more| <= 1
    ensures Sum(more, OfArrival) == if more == [] then multiset{} else OfArrival(more[0])
  {
    if more != [] {
      SumOne(more[0], OfArrival);
      assert more == [more[0]];
    }
  }

  lemma {:induction false} DrainConserved(w: Wire, order: seq<nat>)
    requires Conserved(w)
    ensures Conserved(DrainFrom(w, order))
    decreases |order|
  {
    hide Conserved;
    if order != [] {
      ResolveConserved(w, order[0]);
      DrainConserved(Resolve(w, order[0], |w.heard|, ClosedError()), order[1..]);
    }
  }

  lemma ResolveConserved(w: Wire, id: nat)
    requires Conserved(w)
    ensures Conserved(Resolve(w, id, |w.heard|, ClosedError()))
  {
    hide Sum, Asked;
    var d := Resolve(w, id, |w.heard|, ClosedError());
    var more := d.incoming[|w.incoming|..];
    WireTurns.ResolveGrows(w, id, |w.heard|, ClosedError());
    assert d.incoming == w.incoming + more;
    MoreIncoming(w, more);
    OneMore(more);
  }

  /** Where requests are does not depend on the rest. */
  lemma SameConserved(w: Wire, d: Wire)
    requires Conserved(w)
    requires d.conn == w.conn && d.heard == w.heard && d.incoming == w.incoming && d.taken == w.taken && d.tasks == w.tasks
    requires d.calls == w.calls && d.handled == w.handled && d.callsOpen == w.callsOpen && d.replies == w.replies
    ensures Conserved(d)
  {
  }

  lemma MoveConserved(w: Wire, m: Move)
    requires Conserved(w) && Can(w, m)
    ensures Conserved(Go(w, m))
  {
    hide Conserved, HearOne, TakeOne, FinishTask, DrainFrom, DropAll, Forward;
    match m
    case Hear(message) => HearConserved(w, message);
    case Drain(order) =>
      DrainConserved(w, order);
      SameConserved(DrainFrom(w, order), Go(w, m));
    case Take(finds) => TakeConserved(w, finds);
    case EndRouter => EndConserved(w);
    case Finish(k, before) => FinishConserved(w, k, before);
    case Handle => HandleConserved(w);
    case DropCalls =>
      Bounds(w);
      DropConserved(w);
    case _ => SameConserved(w, Go(w, m));
  }

  lemma AlwaysConserved(w: Wire)
    requires Reachable(w)
    ensures Conserved(w)
  {
    hide Go, Can, Reachable;
    forall v, m | Conserved(v) && Can(v, m) ensures Conserved(Go(v, m)) {
      MoveConserved(v, m);
    }
    Holds(Conserved, w);
  }

  /** In every reachable state of a connection, every request that was heard is in exactly one place:
      on the stream, in a task, waiting for the app, with the app, or answered, once. */
  lemma EveryRequestIsSomewhere(w: Wire, h: nat)
    requires Reachable(w) && h < |w.heard| && w.heard[h].Ask?
    ensures w.taken <= |w.incoming| && w.handled <= |w.calls|
    ensures var t := Token(w.conn, h);
            InStream(w)[t] + Sum(w.tasks, OfTask)[t] + Unhandled(w)[t] + ForApp(w)[t] + Answered(w)[t] == 1
  {
    hide Reachable, Sum;
    AlwaysConserved(w);
    AskedAt(w.heard, h, w.conn);
  }

  /** And nothing else is ever answered. */
  lemma OnlyRequestsAreAnswered(w: Wire, t: Token)
    requires Reachable(w) && t in Answered(w)
    ensures t.conn == w.conn && t.serial < |w.heard| && w.heard[t.serial].Ask? && Answered(w)[t] == 1
  {
    hide Reachable, Sum;
    AlwaysConserved(w);
    AskedOnce(w.heard, w.conn);
    assert Answered(w)[t] <= Asked(w.heard, w.conn)[t];
    AskedIs(w.heard, t, w.conn);
  }

  lemma {:induction false} AskedAt(heard: seq<Message>, h: nat, conn: nat)
    requires h < |heard| && heard[h].Ask?
    ensures Asked(heard, conn)[Token(conn, h)] == 1
  {
    AskedOnce(heard, conn);
    AskedOnce(heard[..|heard| - 1], conn);
    if h < |heard| - 1 {
      AskedAt(heard[..|heard| - 1], h, conn);
    }
  }

  lemma {:induction false} AskedIs(heard: seq<Message>, t: Token, conn: nat)
    requires t in Asked(heard, conn)
    ensures t.conn == conn && t.serial < |heard| && heard[t.serial].Ask?
  {
    if t in Asked(heard[..|heard| - 1], conn) {
      AskedIs(heard[..|heard| - 1], t, conn);
    }
  }
}
