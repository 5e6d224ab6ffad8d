/** The objects of jsonrpc.rs and acp.rs: what their methods do, in the moves of `Wire`. */
module Connections {
  import opened Wrappers
  import opened AgentTypes
  import opened Wires
  import WireReplies

  /** The way to the writer task; `lines` is what went to it, by request. */
  class Outbox {
    var open: bool
    var lines: seq<(Token, Reply)>

    constructor ()
      ensures open && lines == []
    {
      open, lines := true, [];
    }
  }

  /** Answers one request; its id is taken by the first answer. */
  class Responder {
    var id: Option<Token>
    const out: Outbox

    constructor (token: Token, to: Outbox)
      ensures id == Some(token) && out == to
    {
      id, out := Some(token), to;
    }

    method Send(reply: Reply) returns (sent: bool)
      modifies this, out
      ensures id == None && out.open == old(out.open)
      ensures sent == (old(id).Some? && out.open)
      ensures out.lines == old(out.lines) + if sent then [(old(id).value, reply)] else []
    {
      sent := false;
      if id.Some? {
        var token := id.value;
        id := None;
        if out.open {
          out.lines := out.lines + [(token, reply)];
          sent := true;
        }
      }
    }

    /** A responder that goes away unanswered answers with an error. */
    method Drop()
      modifies this, out
      ensures id == None && out.open == old(out.open)
      ensures out.lines == old(out.lines) + if old(id).Some? && out.open then [(old(id).value, Unanswered)] else []
    {
      if id.Some? {
        var _ := Send(Unanswered);
      }
    }

    /** `ok`, `err` and `respond` use the responder up: it is dropped on the way out, which adds
        nothing. */
    method Respond(reply: Reply) returns (sent: bool)
      requires id.Some?
      modifies this, out
      ensures id == None && out.open == old(out.open) && sent == out.open
      ensures out.lines == old(out.lines) + if sent then [(old(id).value, reply)] else []
    {
      sent := Send(reply);
      Drop();
    }

    /** However it ends, a fresh responder sends one answer while the writer runs, and a second end
        adds none. */
    method EndTwice(reply: Option<Reply>)
      requires id.Some?
      modifies this, out
      ensures out.open ==> |out.lines| == |old(out.lines)| + 1 && out.lines[|old(out.lines)|].0 == old(id).value
      ensures !out.open ==> out.lines == old(out.lines)
    {
      if reply.Some? {
        var _ := Respond(reply.value);
      } else {
        Drop();
      }
      Drop();
    }
  }

  class Connection {
    const conn: nat
    const caps: Caps
    var nextId: nat
    var sends: map<nat, Outgoing>
    var waiters: map<nat, Waiter>
    var outOpen: bool
    var readerDone: bool
    var routerDone: bool
    var callsOpen: bool
    var heard: seq<Message>
    var incoming: seq<Arrival>
    var taken: nat
    var resolved: seq<Resolution>
    var prompts: map<nat, string>
    var lock: Lock
    var calls: seq<Sending>
    var handled: nat
    var tasks: seq<Task>
    var replies: seq<(Token, Reply)>

    function View(): Wire
      reads this
    {
      Wires.Wire.Wire(conn, caps, nextId, sends, waiters, outOpen, readerDone, routerDone, callsOpen, heard, incoming, taken, resolved,
                prompts, lock, calls, handled, tasks, replies)
    }

    constructor (number: nat, offered: Caps)
      ensures View() == Fresh(number, offered)
    {
      conn, caps := number, offered;
      nextId, sends, waiters := 1, map[], map[];
      outOpen, readerDone, routerDone, callsOpen := true, false, false, true;
      heard, incoming, taken, resolved := [], [], 0, [];
      prompts, lock, calls, handled, tasks, replies := map[], Free, [], 0, [], [];
    }

    // ----- Requests of ours -----

    /** Takes an id, registers a waiter and gives the request to the writer: `request_value` up to
        where it waits, and `send_ordered` with the lock held. `None` when the writer is gone. */
    method Request(session: Option<string>) returns (r: Option<nat>)
      requires session.Some? ==> lock == Held(session.value)
      modifies this
      ensures r == if old(outOpen) then Some(old(nextId)) else None
      ensures View() == Requested(old(View()), session)
    {
      var id := nextId;
      nextId := nextId + 1;
      sends := sends[id := Outgoing(session, Begun, 0, false)];
      if session.Some? {
        lock := HeldBy(id);
      }
      assert View() == BeginRequest(old(View()), session);
      waiters := waiters[id := if session.Some? then Ordered else Future];
      sends := sends[id := sends[id].(stage := Registered, since := |heard|, early := !readerDone)];
      ghost var registered := View();
      assert registered == RegisterWaiter(BeginRequest(old(View()), session), id);
      if outOpen {
        sends := sends[id := sends[id].(stage := Stage.Sent)];
        r := Some(id);
      } else {
        sends := sends[id := sends[id].(stage := Failing)];
        assert View() == SetStage(registered, id, Failing);
        waiters := waiters - {id};
        sends := sends[id := sends[id].(stage := Returned(false))];
        if session.Some? {
          lock := Free;
        }
        r := None;
      }
    }

    /** `start_prompt`: holds the lock of the running prompts while it sends and notes the prompt. */
    method StartPrompt(session: string) returns (r: Option<nat>)
      requires lock.Free?
      modifies this
      ensures r == if old(outOpen) then Some(old(nextId)) else None
      ensures View() == Prompted(old(View()), session)
    {
      hide Requested;
      lock := Held(session);
      ghost var held := View();
      r := Request(Some(session));
      RequestedIs(held, session);
      if r.Some? {
        prompts := prompts[r.value := session];
        sends := sends[r.value := sends[r.value].(stage := Returned(true))];
        lock := Free;
      }
    }

    // ----- The reader -----

    method Resolve(id: nat, source: nat, result: TurnResult)
      modifies this
      ensures View() == Wires.Resolve(old(View()), id, source, result)
    {
      if id in waiters {
        var waiter := waiters[id];
        waiters := waiters - {id};
        resolved := resolved + [Resolution(id, source, result)];
        if waiter.Ordered? {
          incoming := incoming + [Arrival(source, Response(id, result))];
        }
      }
    }

    /** `dispatch_one` */
    method DispatchOne(message: Message)
      modifies this
      ensures View() == HearOne(old(View()), message)
    {
      hide Wires.Resolve;
      var at := |heard|;
      heard := heard + [message];
      match message
      case Answer(id, result) => Resolve(id, at, result);
      case Ask(request) => incoming := incoming + [Arrival(at, Item.Request(Token(conn, at), request))];
      case Note(note) => incoming := incoming + [Arrival(at, Notice(note))];
      case Noise =>
    }

    /** `dispatch`: the items of a batch, one by one, in order. */
    method Dispatch(items: seq<Message>)
      requires !readerDone
      modifies this
      ensures Path(old(View()), Heard(items), View()) && !readerDone
    {
      hide HearOne;
      var i := 0;
      while i < |items|
        invariant 0 <= i <= |items| && !readerDone
        invariant Path(old(View()), Heard(items[..i]), View())
      {
        ghost var before := View();
        DispatchOne(items[i]);
        StillReading(before, items[i]);
        assert items[..i + 1] == items[..i] + [items[i]];
        OneMore(old(View()), Heard(items[..i]), before, Hear(items[i]), View());
        i := i + 1;
      }
      assert items[..i] == items;
    }

    /** What the reader does at the end of the stream: every waiter is told, in whatever order the map
        has them. */
    method DrainWaiters() returns (ghost order: seq<nat>)
      requires !readerDone
      modifies this
      ensures OrderOf(order, old(waiters))
      ensures View() == Go(old(View()), Drain(order)) && waiters == map[]
    {
      hide Wires.Resolve;
      ghost var w := View();
      order := [];
      var left := waiters.Keys;
      while left != {}
        invariant !readerDone && left <= old(waiters).Keys
        invariant forall id :: id in order <==> id in old(waiters) && id !in left
        invariant forall i, j :: 0 <= i < j < |order| ==> order[i] != order[j]
        invariant View() == DrainFrom(w, order)
        invariant waiters.Keys == left
        decreases |left|
      {
        var id :| id in left;
        DrainHeard(w, order);
        DrainOneMore(w, order, id);
        Dropped(View(), id);
        Resolve(id, |heard|, ClosedError());
        order := order + [id];
        left := left - {id};
      }
      assert forall i :: 0 <= i < |order| ==> order[i] in order;
      DrainHeard(w, order);
      assert waiters == map[];
      readerDone := true;
    }

    // ----- The router -----

    method Forward(arrival: nat, source: nat, call: ClientCall)
      modifies this
      ensures View() == Wires.Forward(old(View()), arrival, source, call)
    {
      calls := calls + [Sending(arrival, source, call)];
      if !callsOpen {
        replies := replies + DropReply(call);
      }
      assert old(replies) + [] == old(replies);
    }

    method Follow(arrival: nat, source: nat, token: Token, route: Route)
      modifies this
      ensures View() == Wires.Follow(old(View()), arrival, source, token, route)
    {
      hide Wires.Forward;
      match route
      case Answered(reply) => replies := replies + [(token, reply)];
      case Work(task) => tasks := tasks + [task];
      case ToApp(call) => Forward(arrival, source, call);
    }

    /** One round of `route`. */
    method RouteOne(finds: Finds)
      requires taken < |incoming| && (incoming[taken].item.Response? ==> lock.Free?)
      modifies this
      ensures View() == TakeOne(old(View()), finds)
    {
      hide Wires.Forward, Wires.Follow, RouteOf;
      var at, a := taken, incoming[taken];
      taken := taken + 1;
      match a.item
      case Response(id, result) =>
        if id in prompts {
          var session := prompts[id];
          prompts := prompts - {id};
          Forward(at, a.source, TurnEndedCall(session, id, result));
        }
      case Notice(note) =>
        if note.SessionUpdate? {
          Forward(at, a.source, UpdateCall(note.session, note.update));
        } else if note.ElicitationDone? {
          Forward(at, a.source, ElicitationComplete(note.elicitation));
        }
      case Request(token, request) => Follow(at, a.source, token, RouteOf(caps, request, token, finds));
    }

    /** The router goes through what is left of a finished stream, and says that it is closed.
        `finds` is what it finds, arrival by arrival. */
    method RouteRest(finds: seq<Finds>)
      requires readerDone && !routerDone && lock.Free? && taken <= |incoming| && |finds| == |incoming|
      modifies this
      ensures Path(old(View()), Takes(finds, old(taken)) + [EndRouter], View())
      ensures taken == |incoming| && routerDone
    {
      hide TakeOne, Takes, Wires.Forward;
      ghost var from := taken;
      NoTakes(finds, from);
      while taken < |incoming|
        invariant from <= taken <= |incoming| && incoming == old(incoming) && readerDone && !routerDone && lock.Free?
        invariant Path(old(View()), Takes(finds[..taken], from), View())
        decreases |incoming| - taken
      {
        ghost var before, k := View(), taken;
        RouteOne(finds[taken]);
        WireReplies.TakeLeaves(before, finds[k]);
        assert finds[..k + 1][..k] == finds[..k];
        TakesMore(finds[..k + 1], from);
        OneMore(old(View()), Takes(finds[..k], from), before, Take(finds[k]), View());
      }
      assert finds[..taken] == finds;
      ghost var last := View();
      ForwardLeaves(last, |incoming|, |heard|);
      Forward(|incoming|, |heard|, ClosedCall);
      routerDone := true;
      OneMore(old(View()), Takes(finds, from), last, EndRouter, View());
    }
  }

  // ----- Requests, as moves -----

  /** A request that is written, or taken back because the writer is gone. */
  function Requested(w: Wire, session: Option<string>): Wire {
    var id := w.nextId;
    var r := RegisterWaiter(BeginRequest(w, session), id);
    if w.outOpen then SetStage(r, id, Stage.Sent) else UnregisterWaiter(SetStage(r, id, Failing), id)
  }

  function RequestMoves(id: nat, session: Option<string>, open: bool): seq<Move> {
    if open then [Begin(session), Register(id), Post(id)] else [Begin(session), Register(id), Post(id), Unregister(id)]
  }

  function Prompted(w: Wire, session: string): Wire {
    var d := Requested(w.(lock := Held(session)), Some(session));
    if w.outOpen && w.nextId in d.sends && d.sends[w.nextId].session.Some? then CommitPrompt(d, w.nextId) else d
  }

  function PromptMoves(id: nat, session: string, open: bool): seq<Move> {
    [LockPrompts(session)] + RequestMoves(id, Some(session), open) + if open then [Commit(id)] else []
  }

  lemma RequestedIs(w: Wire, session: string)
    ensures var d, id := Requested(w, Some(session)), w.nextId;
            && id in d.sends && d.outOpen == w.outOpen && d.sends[id].session == Some(session)
            && (if w.outOpen then d.sends[id].stage.Sent? && d.lock == HeldBy(id) else d.sends[id].stage == Returned(false) && d.lock.Free?)
  {
  }

  lemma Begins(w: Wire, session: Option<string>)
    requires session.Some? ==> w.lock == Held(session.value)
    ensures Can(w, Begin(session)) && Go(w, Begin(session)) == BeginRequest(w, session)
    ensures var b := BeginRequest(w, session);
            b.outOpen == w.outOpen && w.nextId in b.sends && b.sends[w.nextId].stage.Begun?
  {
  }

  lemma Registers(w: Wire, id: nat)
    requires id in w.sends && w.sends[id].stage.Begun?
    ensures Can(w, Register(id)) && Go(w, Register(id)) == RegisterWaiter(w, id)
    ensures var r := RegisterWaiter(w, id);
            r.outOpen == w.outOpen && id in r.sends && r.sends[id].stage.Registered?
  {
  }

  lemma Posts(w: Wire, id: nat)
    requires id in w.sends && w.sends[id].stage.Registered?
    ensures var stage := if w.outOpen then Stage.Sent else Failing;
            && Can(w, Post(id)) && Go(w, Post(id)) == SetStage(w, id, stage)
            && id in SetStage(w, id, stage).sends && SetStage(w, id, stage).sends[id].stage == stage
  {
  }

  lemma Unregisters(w: Wire, id: nat)
    requires id in w.sends && w.sends[id].stage.Failing?
    ensures Can(w, Unregister(id)) && Go(w, Unregister(id)) == UnregisterWaiter(w, id)
  {
  }

  /** What `request_value` and `send_ordered` do, they do in these moves, each of which can happen
      where it comes. */
  lemma RequestIsMoves(w: Wire, session: Option<string>)
    requires session.Some? ==> w.lock == Held(session.value)
    ensures Path(w, RequestMoves(w.nextId, session, w.outOpen), Requested(w, session))
  {
    hide Path, Can, Go, BeginRequest, RegisterWaiter, SetStage, UnregisterWaiter;
    var id := w.nextId;
    var one, two, three := [Begin(session)], [Begin(session), Register(id)], [Begin(session), Register(id), Post(id)];
    assert [] + one == one && one + [Register(id)] == two && two + [Post(id)] == three;
    NoMoves(w);
    Begins(w, session);
    var b := BeginRequest(w, session);
    OneMore(w, [], w, Begin(session), b);
    Registers(b, id);
    var r := RegisterWaiter(b, id);
    OneMore(w, one, b, Register(id), r);
    Posts(r, id);
    var p := SetStage(r, id, if w.outOpen then Stage.Sent else Failing);
    OneMore(w, two, r, Post(id), p);
    if !w.outOpen {
      Unregisters(p, id);
      OneMore(w, three, p, Unregister(id), UnregisterWaiter(p, id));
      assert three + [Unregister(id)] == RequestMoves(id, session, false);
    }
  }

  /** And so does `start_prompt`: from taking the lock to letting it go. */
  lemma PromptIsMoves(w: Wire, session: string)
    requires w.lock.Free?
    ensures Path(w, PromptMoves(w.nextId, session, w.outOpen), Prompted(w, session))
    ensures Prompted(w, session).lock.Free?
  {
    hide Path, Requested, RequestMoves;
    var h := w.(lock := Held(session));
    var id, ms := w.nextId, RequestMoves(w.nextId, Some(session), w.outOpen);
    RequestIsMoves(h, Some(session));
    RequestedIs(h, session);
    var d := Requested(h, Some(session));
    FirstMove(w, LockPrompts(session), h, ms, d);
    if w.outOpen {
      OneMore(w, [LockPrompts(session)] + ms, d, Commit(id), CommitPrompt(d, id));
    } else {
      assert [LockPrompts(session)] + ms + [] == [LockPrompts(session)] + ms;
    }
  }

  /** A connection whose agent hung up at once, and a prompt sent after that. */
  function HungUp(conn: nat, caps: Caps): Wire {
    Wires.Forward(Wires.Fresh(conn, caps).(readerDone := true), 0, 0, ClosedCall).(routerDone := true)
  }

  /** It is reported as sent, and has no end among the calls: only the end of the connection does. */
  lemma LatePromptHasNoEnd(conn: nat, caps: Caps, session: string)
    ensures var d := Prompted(HungUp(conn, caps), session);
            && Path(Wires.Fresh(conn, caps), [Drain([]), EndRouter] + PromptMoves(1, session, true), d)
            && d.routerDone && 1 in d.prompts && d.sends[1].stage == Returned(true)
            && |d.calls| == 1 && d.calls[0].call.ClosedCall?
  {
    hide PromptMoves, Path;
    var w, c := Wires.Fresh(conn, caps), HungUp(conn, caps);
    var e := w.(readerDone := true);
    assert Go(w, Drain([])) == e && Go(e, EndRouter) == c;
    PromptIsMoves(c, session);
    var ms := PromptMoves(1, session, true);
    FirstMove(e, EndRouter, c, ms, Prompted(c, session));
    FirstMove(w, Drain([]), e, [EndRouter] + ms, Prompted(c, session));
    assert [Drain([])] + ([EndRouter] + ms) == [Drain([]), EndRouter] + ms;
  }

  lemma NoMoves(w: Wire)
    ensures Path(w, [], w)
  {
  }

  // ----- Moves in a row -----

  function Heard(items: seq<Message>): seq<Move> {
    if items == [] then [] else Heard(items[..|items| - 1]) + [Hear(items[|items| - 1])]
  }

  function Takes(finds: seq<Finds>, from: nat): seq<Move> {
    if |finds| <= from then [] else Takes(finds[..|finds| - 1], from) + [Take(finds[|finds| - 1])]
  }

  lemma TakesMore(finds: seq<Finds>, from: nat)
    requires from < |finds|
    ensures Takes(finds, from) == Takes(finds[..|finds| - 1], from) + [Take(finds[|finds| - 1])]
  {
  }

  lemma NoTakes(finds: seq<Finds>, from: nat)
    requires from <= |finds|
    ensures Takes(finds[..from], from) == []
  {
  }

  lemma {:induction false} OneMore(w: Wire, ms: seq<Move>, d: Wire, m: Move, e: Wire)
    requires Path(w, ms, d) && Can(d, m) && Go(d, m) == e
    ensures Path(w, ms + [m], e)
    decreases |ms|
  {
    hide Go, Can;
    if ms == [] {
      assert ms + [m] == [m] && [m][1..] == [];
    } else {
      OneMore(Go(w, ms[0]), ms[1..], d, m, e);
      assert (ms + [m])[1..] == ms[1..] + [m];
    }
  }

  lemma FirstMove(w: Wire, m: Move, d: Wire, ms: seq<Move>, e: Wire)
    requires Can(w, m) && Go(w, m) == d && Path(d, ms, e)
    ensures Path(w, [m] + ms, e)
  {
    hide Go, Can;
    assert ([m] + ms)[1..] == ms;
  }

  lemma StillReading(w: Wire, message: Message)
    ensures HearOne(w, message).readerDone == w.readerDone
  {
  }

  lemma {:induction false} DrainHeard(w: Wire, order: seq<nat>)
    ensures DrainFrom(w, order).heard == w.heard
    decreases |order|
  {
    if order != [] {
      DrainHeard(Wires.Resolve(w, order[0], |w.heard|, ClosedError()), order[1..]);
    }
  }

  lemma {:induction false} DrainOneMore(w: Wire, order: seq<nat>, id: nat)
    ensures DrainFrom(w, order + [id]) == Wires.Resolve(DrainFrom(w, order), id, |w.heard|, ClosedError())
    decreases |order|
  {
    hide Wires.Resolve;
    if order == [] {
      assert order + [id] == [id] && [id][1..] == [];
    } else {
      var e := Wires.Resolve(w, order[0], |w.heard|, ClosedError());
      DrainHeard(w, [order[0]]);
      assert [order[0]][1..] == [];
      assert (order + [id])[1..] == order[1..] + [id];
      DrainOneMore(e, order[1..], id);
    }
  }

  lemma Dropped(w: Wire, id: nat)
    requires id in w.waiters
    ensures Wires.Resolve(w, id, |w.heard|, ClosedError()).waiters.Keys == w.waiters.Keys - {id}
    ensures Wires.Resolve(w, id, |w.heard|, ClosedError()).readerDone == w.readerDone
    ensures Wires.Resolve(w, id, |w.heard|, ClosedError()).heard == w.heard
  {
  }

  lemma ForwardLeaves(w: Wire, arrival: nat, source: nat)
    ensures var d := Wires.Forward(w, arrival, source, ClosedCall);
            d.taken == w.taken && d.incoming == w.incoming && d.readerDone == w.readerDone
  {
  }
}
