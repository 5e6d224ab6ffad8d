/** Answers find their requests: ids are never used again, and a waiter is resolved at most once, by
    the first answer with its id or by the drain. */
module WireReplies {
  import opened Wrappers
  import opened AgentTypes
  import opened Wires
  import Text

  ghost predicate NoAnswer(heard: seq<Message>, from: nat, to: nat, id: nat)
    requires to <= |heard|
  {
    forall h :: from <= h < to && heard[h].Answer? ==> heard[h].id != id
  }

  /** Registered, and not taken back. */
  predicate Live(stage: Stage) { stage.Registered? || stage.Sent? || stage.Failing? || stage == Returned(true) }

  /** A waiter is that of a live request, and nothing heard since it was registered answers it. */
  ghost predicate WaiterOk(w: Wire, id: nat)
    requires id in w.waiters
  {
    && id in w.sends && Live(w.sends[id].stage)
    && (w.waiters[id].Ordered? <==> w.sends[id].session.Some?)
    && w.sends[id].since <= |w.heard| && NoAnswer(w.heard, w.sends[id].since, |w.heard|, id)
    && (w.sends[id].early <==> !w.readerDone)
  }

  /** A resolution is the first answer heard since registration; or, if there was none by then, the
      drain's. */
  ghost predicate ResolutionOk(w: Wire, r: Resolution, draining: bool) {
    && r.id in w.sends && r.id !in w.waiters && !w.sends[r.id].stage.Begun? && w.sends[r.id].early
    && w.sends[r.id].since <= r.source <= |w.heard| && NoAnswer(w.heard, w.sends[r.id].since, r.source, r.id)
    && if r.source < |w.heard| then w.heard[r.source] == Message.Answer(r.id, r.result)
       else (w.readerDone || draining) && r.result == ClosedError()
  }

  ghost predicate Resolved(rs: seq<Resolution>, id: nat) {
    exists i :: 0 <= i < |rs| && rs[i].id == id
  }

  ghost predicate Once(rs: seq<Resolution>) {
    forall i, j :: 0 <= i < j < |rs| ==> rs[i].id != rs[j].id
  }

  ghost predicate Matched(w: Wire, draining: bool) {
    && (forall id :: id in w.sends ==> id < w.nextId)
    && (forall id :: id in w.waiters ==> WaiterOk(w, id))
    && (forall i :: 0 <= i < |w.resolved| ==> ResolutionOk(w, w.resolved[i], draining))
    && Once(w.resolved)
    && (forall id :: id in w.sends && Live(w.sends[id].stage) && id !in w.waiters ==> Resolved(w.resolved, id))
  }

  ghost predicate Routed(w: Wire) { Matched(w, false) }

  // ----- Kept by every move -----

  /** Moves that leave waiters, history and answers alone, or only bring a request forward. */
  lemma StageKept(w: Wire, d: Wire, id: nat, stage: Stage)
    requires Routed(w) && id in w.sends
    requires d == SetStage(w, id, stage).(prompts := d.prompts, lock := d.lock)
    requires Live(w.sends[id].stage) && Live(stage)
    ensures Routed(d)
  {
    assert forall k :: k in w.waiters ==> WaiterOk(w, k);
    forall i | 0 <= i < |d.resolved| ensures ResolutionOk(d, d.resolved[i], false) {
      assert ResolutionOk(w, w.resolved[i], false);
    }
  }

  lemma BeginKept(w: Wire, session: Option<string>)
    requires Routed(w)
    ensures Routed(BeginRequest(w, session)) && w.nextId !in w.sends
  {
    var d := BeginRequest(w, session);
    forall k | k in d.waiters ensures WaiterOk(d, k) {
      assert WaiterOk(w, k);
    }
    forall i | 0 <= i < |d.resolved| ensures ResolutionOk(d, d.resolved[i], false) {
      assert ResolutionOk(w, w.resolved[i], false);
    }
  }

  lemma RegisterKept(w: Wire, id: nat)
    requires Routed(w) && id in w.sends && w.sends[id].stage.Begun?
    ensures Routed(RegisterWaiter(w, id))
  {
    var d := RegisterWaiter(w, id);
    forall k | k in d.waiters ensures WaiterOk(d, k) {
      if k != id { assert WaiterOk(w, k); }
    }
    forall i | 0 <= i < |d.resolved| ensures ResolutionOk(d, d.resolved[i], false) {
      assert ResolutionOk(w, w.resolved[i], false);
    }
  }

  lemma UnregisterKept(w: Wire, id: nat)
    requires Routed(w) && id in w.sends && w.sends[id].stage.Failing?
    ensures Routed(UnregisterWaiter(w, id))
  {
    var d := UnregisterWaiter(w, id);
    forall k | k in d.waiters ensures WaiterOk(d, k) {
      assert WaiterOk(w, k);
    }
    forall i | 0 <= i < |d.resolved| ensures ResolutionOk(d, d.resolved[i], false) {
      assert ResolutionOk(w, w.resolved[i], false);
    }
  }

  /** A message is heard that answers nobody who waits. */
  lemma HeardKept(w: Wire, message: Message)
    requires Routed(w) && !w.readerDone
    requires message.Answer? ==> message.id !in w.waiters
    ensures Routed(w.(heard := w.heard + [message]))
  {
    var d := w.(heard := w.heard + [message]);
    forall k | k in d.waiters ensures WaiterOk(d, k) {
      assert WaiterOk(w, k);
    }
    forall i | 0 <= i < |d.resolved| ensures ResolutionOk(d, d.resolved[i], false) {
      assert ResolutionOk(w, w.resolved[i], false);
    }
  }

  lemma ResolveOnce(rs: seq<Resolution>, r: Resolution)
    requires Once(rs) && !Resolved(rs, r.id)
    ensures Once(rs + [r])
    ensures forall id :: Resolved(rs + [r], id) <==> Resolved(rs, id) || id == r.id
  {
    var all := rs + [r];
    forall id ensures Resolved(all, id) <==> Resolved(rs, id) || id == r.id {
      if id == r.id { assert all[|rs|].id == id; }
      if Resolved(rs, id) {
        var i :| 0 <= i < |rs| && rs[i].id == id;
        assert all[i].id == id;
      }
    }
  }

  /** The waiter gets the answer it was waiting for. */
  lemma ResolveKept(w: Wire, id: nat, source: nat, result: TurnResult, draining: bool)
    requires Matched(w, draining) && id in w.waiters && !w.readerDone
    requires w.sends[id].since <= source <= |w.heard|
    requires if source < |w.heard| then w.heard[source] == Message.Answer(id, result) else draining && result == ClosedError()
    ensures Matched(Resolve(w, id, source, result), draining)
  {
    hide WaiterOk, ResolutionOk, Once, Resolve, Live;
    var d, r := Resolve(w, id, source, result), Resolution(id, source, result);
    ResolveIs(w, id, source, result);
    NotYet(w, id, draining);
    ResolveOnce(w.resolved, r);
    forall k | k in d.waiters ensures WaiterOk(d, k) {
      WaitsOn(w, d, k);
    }
    ResolvedOk(w, d, r, draining);
    forall i | 0 <= i < |w.resolved| ensures ResolutionOk(d, w.resolved[i], draining) {
      StaysResolved(w, d, w.resolved[i], draining);
    }
  }

  lemma ResolveIs(w: Wire, id: nat, source: nat, result: TurnResult)
    requires id in w.waiters
    ensures var d := Resolve(w, id, source, result);
            && d.waiters == w.waiters - {id} && d.resolved == w.resolved + [Resolution(id, source, result)]
            && d.sends == w.sends && d.heard == w.heard && d.readerDone == w.readerDone && d.nextId == w.nextId
  {
    match w.waiters[id]
    case Ordered =>
    case Future =>
  }

  lemma NotYet(w: Wire, id: nat, draining: bool)
    requires Matched(w, draining) && id in w.waiters
    ensures !Resolved(w.resolved, id) && WaiterOk(w, id)
  {
    hide WaiterOk;
    assert forall i :: 0 <= i < |w.resolved| ==> ResolutionOk(w, w.resolved[i], draining);
  }

  lemma WaitsOn(w: Wire, d: Wire, k: nat)
    requires k in w.waiters && k in d.waiters && d.waiters[k] == w.waiters[k] && WaiterOk(w, k)
    requires d.sends == w.sends && d.heard == w.heard && d.readerDone == w.readerDone
    ensures WaiterOk(d, k)
  {
  }

  lemma ResolvedOk(w: Wire, d: Wire, r: Resolution, draining: bool)
    requires r.id in w.waiters && WaiterOk(w, r.id) && r.id !in d.waiters && !w.readerDone
    requires d.sends == w.sends && d.heard == w.heard && d.readerDone == w.readerDone
    requires w.sends[r.id].since <= r.source <= |w.heard|
    requires if r.source < |w.heard| then w.heard[r.source] == Message.Answer(r.id, r.result) else draining && r.result == ClosedError()
    ensures ResolutionOk(d, r, draining)
  {
  }

  lemma StaysResolved(w: Wire, d: Wire, r: Resolution, draining: bool)
    requires ResolutionOk(w, r, draining) && (forall k :: k in d.waiters ==> k in w.waiters)
    requires d.sends == w.sends && d.heard == w.heard && d.readerDone == w.readerDone
    ensures ResolutionOk(d, r, draining)
  {
  }

  lemma AnswerKept(w: Wire, id: nat, result: TurnResult)
    requires Routed(w) && !w.readerDone
    ensures Routed(HearOne(w, Message.Answer(id, result)))
  {
    var message := Message.Answer(id, result);
    if id in w.waiters {
      AnswerResolves(w, id, result);
    } else {
      HeardKept(w, message);
    }
  }

  lemma StillWaits(w: Wire, d: Wire, k: nat, message: Message)
    requires k in w.waiters && WaiterOk(w, k) && k in d.waiters && d.waiters[k] == w.waiters[k]
    requires d.sends == w.sends && d.readerDone == w.readerDone && d.heard == w.heard + [message]
    requires message.Answer? ==> message.id != k
    ensures WaiterOk(d, k)
  {
  }

  lemma StillResolved(w: Wire, d: Wire, r: Resolution, message: Message)
    requires ResolutionOk(w, r, false) && (forall k :: k in d.waiters ==> k in w.waiters) && !w.readerDone
    requires d.sends == w.sends && d.heard == w.heard + [message]
    ensures ResolutionOk(d, r, false)
  {
  }

  /** As `ResolveKept`, for an answer that is heard and handed on in one step. */
  lemma AnswerResolves(w: Wire, id: nat, result: TurnResult)
    requires Routed(w) && !w.readerDone && id in w.waiters
    ensures Routed(HearOne(w, Message.Answer(id, result)))
  {
    hide WaiterOk, ResolutionOk, NoAnswer, Resolve, Once;
    var message := Message.Answer(id, result);
    var d, r := HearOne(w, message), Resolution(id, |w.heard|, result);
    ResolveIs(w.(heard := w.heard + [message]), id, |w.heard|, result);
    FirstAnswer(w, d, r);
    assert !Resolved(w.resolved, id) by { NotResolved(w, id); }
    ResolveOnce(w.resolved, r);
    forall k | k in d.waiters ensures WaiterOk(d, k) {
      StillWaits(w, d, k, message);
    }
    forall i | 0 <= i < |d.resolved| ensures ResolutionOk(d, d.resolved[i], false) {
      if i < |w.resolved| {
        StillResolved(w, d, w.resolved[i], message);
      }
    }
  }

  lemma NotResolved(w: Wire, id: nat)
    requires Routed(w) && id in w.waiters
    ensures !Resolved(w.resolved, id)
  {
    assert forall i :: 0 <= i < |w.resolved| ==> ResolutionOk(w, w.resolved[i], false);
  }

  lemma FirstAnswer(w: Wire, d: Wire, r: Resolution)
    requires r.id in w.waiters && WaiterOk(w, r.id) && r.id !in d.waiters && !w.readerDone
    requires d.sends == w.sends && d.heard == w.heard + [Message.Answer(r.id, r.result)] && r.source == |w.heard|
    ensures ResolutionOk(d, r, false)
  {
  }

  lemma {:induction false} DrainKept(w: Wire, order: seq<nat>)
    requires Matched(w, true) && !w.readerDone
    requires forall i :: 0 <= i < |order| ==> order[i] in w.waiters
    requires forall i, j :: 0 <= i < j < |order| ==> order[i] != order[j]
    ensures var d := DrainFrom(w, order);
            && Matched(d, true) && !d.readerDone && d.sends == w.sends && d.heard == w.heard
            && (forall id :: id in d.waiters <==> id in w.waiters && id !in order)
    decreases |order|
  {
    hide Matched;
    if order != [] {
      var id := order[0];
      assert WaiterOk(w, id) by { WaitersOk(w, id); }
      var e := Resolve(w, id, |w.heard|, ClosedError());
      ResolveKept(w, id, |w.heard|, ClosedError(), true);
      assert forall i :: 0 <= i < |order[1..]| ==> order[1..][i] == order[i + 1];
      DrainKept(e, order[1..]);
      assert order == [id] + order[1..];
    }
  }

  lemma WaitersOk(w: Wire, id: nat)
    requires Matched(w, true) && id in w.waiters
    ensures WaiterOk(w, id)
  {
  }

  lemma DrainDone(w: Wire, order: seq<nat>)
    requires Routed(w) && !w.readerDone && OrderOf(order, w.waiters)
    ensures Routed(DrainFrom(w, order).(readerDone := true)) && DrainFrom(w, order).waiters == map[]
  {
    DrainKept(w, order);
    var d := DrainFrom(w, order);
    assert d.waiters == map[];
    forall i | 0 <= i < |d.resolved| ensures ResolutionOk(d.(readerDone := true), d.resolved[i], false) {
      assert ResolutionOk(d, d.resolved[i], true);
    }
  }

  /** Nothing here looks at what the router, the app and the writer do. */
  lemma SameKept(w: Wire, d: Wire)
    requires Routed(w)
    requires d.nextId == w.nextId && d.sends == w.sends && d.waiters == w.waiters && d.heard == w.heard
    requires d.resolved == w.resolved && d.readerDone == w.readerDone
    ensures Routed(d)
  {
    forall k | k in d.waiters ensures WaiterOk(d, k) {
      assert WaiterOk(w, k);
    }
    forall i | 0 <= i < |d.resolved| ensures ResolutionOk(d, d.resolved[i], false) {
      assert ResolutionOk(w, w.resolved[i], false);
    }
  }

  lemma FollowLeaves(w: Wire, arrival: nat, source: nat, token: Token, route: Route)
    ensures var d := Follow(w, arrival, source, token, route);
            d == w.(calls := d.calls, replies := d.replies, tasks := d.tasks)
  {
    hide DropReply;
  }

  lemma TakeLeaves(w: Wire, finds: Finds)
    requires w.taken < |w.incoming|
    ensures var d := TakeOne(w, finds);
            && d == w.(taken := w.taken + 1, prompts := d.prompts, calls := d.calls, replies := d.replies, tasks := d.tasks)
            && (w.incoming[w.taken].item.Response? || d.prompts == w.prompts)
  {
    hide RouteOf, DropReply, Follow;
    var a := w.incoming[w.taken];
    if a.item.Request? {
      FollowLeaves(w.(taken := w.taken + 1), w.taken, a.source, a.item.token, RouteOf(w.caps, a.item.request, a.item.token, finds));
    }
  }

  lemma FinishLeaves(w: Wire, k: nat, before: Option<string>)
    requires k < |w.tasks|
    ensures var d := FinishTask(w, k, before); d == w.(calls := d.calls, replies := d.replies, tasks := d.tasks)
  {
    hide Follow, Done;
    var task := w.tasks[k];
    FollowLeaves(w.(tasks := w.tasks[..k] + w.tasks[k + 1..]), task.token.serial, task.token.serial, task.token, Done(task, before));
  }

  lemma OtherMoves(w: Wire, m: Move)
    requires Can(w, m)
    requires m.LockPrompts? || m.Take? || m.EndRouter? || m.StopWriter? || m.Finish? || m.Handle? || m.DropCalls?
    ensures var d := Go(w, m);
            && d.nextId == w.nextId && d.sends == w.sends && d.waiters == w.waiters && d.heard == w.heard
            && d.resolved == w.resolved && d.readerDone == w.readerDone && d.conn == w.conn && d.caps == w.caps
            && d.incoming == w.incoming
  {
    hide TakeOne, FinishTask, DropAll, DropReply;
    if m.Take? {
      TakeLeaves(w, m.finds);
    } else if m.Finish? {
      FinishLeaves(w, m.task, m.before);
    }
  }

  lemma HearKept(w: Wire, message: Message)
    requires Routed(w) && !w.readerDone
    ensures Routed(HearOne(w, message))
  {
    hide Matched, Resolve;
    if message.Answer? {
      AnswerKept(w, message.id, message.result);
    } else {
      HeardKept(w, message);
      SameKept(w.(heard := w.heard + [message]), HearOne(w, message));
    }
  }

  lemma MoveKept(w: Wire, m: Move)
    requires Routed(w) && Can(w, m)
    ensures Routed(Go(w, m))
  {
    hide Matched, DropAll, DropReply, HearOne, TakeOne, FinishTask, DrainFrom;
    match m
    case Begin(session) => BeginKept(w, session);
    case Register(id) => RegisterKept(w, id);
    case Post(id) => StageKept(w, Go(w, m), id, if w.outOpen then Stage.Sent else Failing);
    case Unregister(id) => UnregisterKept(w, id);
    case Commit(id) => StageKept(w, Go(w, m), id, Returned(true));
    case Hear(message) => HearKept(w, message);
    case Drain(order) => DrainDone(w, order);
    case _ =>
      OtherMoves(w, m);
      SameKept(w, Go(w, m));
  }

  lemma AlwaysRouted(w: Wire)
    requires Reachable(w)
    ensures Routed(w)
  {
    hide Go, Can, Reachable;
    forall v, m | Routed(v) && Can(v, m) ensures Routed(Go(v, m)) {
      MoveKept(v, m);
    }
    Holds(Routed, w);
  }

  // ----- What callers can rely on -----

  /** A new request gets an id that no request had before. */
  lemma IdsAreNew(w: Wire, session: Option<string>)
    requires Reachable(w) && Can(w, Begin(session))
    ensures w.nextId !in w.sends && w.nextId in Go(w, Begin(session)).sends
    ensures forall id :: id in w.sends ==> id in Go(w, Begin(session)).sends && Go(w, Begin(session)).sends[id] == w.sends[id]
  {
    hide Reachable;
    AlwaysRouted(w);
    BeginKept(w, session);
  }

  /** In every reachable state, for every waiter that was ever registered: it waits, or it was taken
      back because the request could not be written, or it was resolved. It is resolved at most once,
      by the first answer with its id heard since it was registered, or, if there was none, by the
      drain; and a waiter the drain found is not waiting any more. */
  lemma RepliesFindTheirRequest(w: Wire, id: nat)
    requires Reachable(w) && id in w.sends && !w.sends[id].stage.Begun?
    ensures var s := w.sends[id];
            && (id in w.waiters ==> !Resolved(w.resolved, id) && NoAnswer(w.heard, s.since, |w.heard|, id))
            && (id in w.waiters && w.readerDone ==> !s.early)
            && (id !in w.waiters && !Resolved(w.resolved, id) ==> s.stage == Returned(false))
            && (forall i, j :: 0 <= i < j < |w.resolved| && w.resolved[i].id == id ==> w.resolved[j].id != id)
            && (forall i :: 0 <= i < |w.resolved| && w.resolved[i].id == id ==>
                  var r := w.resolved[i];
                  && s.early && s.since <= r.source <= |w.heard| && NoAnswer(w.heard, s.since, r.source, id)
                  && if r.source < |w.heard| then w.heard[r.source] == Message.Answer(id, r.result)
                     else w.readerDone && r.result == ClosedError())
  {
    hide Reachable;
    AlwaysRouted(w);
    assert forall i :: 0 <= i < |w.resolved| ==> ResolutionOk(w, w.resolved[i], false);
    if id in w.waiters {
      assert WaiterOk(w, id);
    }
  }

  /** An answer with an id nobody waits for, unknown or repeated, changes nothing. */
  lemma UnknownAnswersChangeNothing(w: Wire, id: nat, result: TurnResult)
    requires !w.readerDone
    ensures var d := Go(w, Hear(Message.Answer(id, result)));
            && id !in d.waiters
            && (id !in w.waiters ==> d == w.(heard := w.heard + [Message.Answer(id, result)]))
            && Go(d, Hear(Message.Answer(id, result))) == d.(heard := d.heard + [Message.Answer(id, result)])
  {
  }

  function Drained(order: seq<nat>, source: nat): seq<Resolution> {
    if order == [] then [] else [Resolution(order[0], source, ClosedError())] + Drained(order[1..], source)
  }

  /** The drain resolves every waiter it finds, each once, with the closed error, and leaves none. */
  lemma DrainResolvesAll(w: Wire, order: seq<nat>)
    requires Reachable(w) && Can(w, Drain(order))
    ensures var d := Go(w, Drain(order));
            && d.waiters == map[] && d.resolved == w.resolved + Drained(order, |w.heard|)
            && (forall id :: id in w.waiters <==> id in order)
  {
    hide Reachable, Matched, DrainFrom;
    AlwaysRouted(w);
    DrainDone(w, order);
    DrainList(w, order);
  }

  lemma {:induction false} DrainList(w: Wire, order: seq<nat>)
    requires forall i :: 0 <= i < |order| ==> order[i] in w.waiters
    requires forall i, j :: 0 <= i < j < |order| ==> order[i] != order[j]
    ensures DrainFrom(w, order).resolved == w.resolved + Drained(order, |w.heard|)
    decreases |order|
  {
    if order != [] {
      var r := Resolution(order[0], |w.heard|, ClosedError());
      var e := Resolve(w, order[0], |w.heard|, ClosedError());
      assert forall i :: 0 <= i < |order[1..]| ==> order[1..][i] == order[i + 1];
      DrainList(e, order[1..]);
      Text.Assoc(w.resolved, [r], Drained(order[1..], |w.heard|));
    }
  }
}
