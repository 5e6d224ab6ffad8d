/** Every prompt's end reaches the app once, after everything the agent wrote before it. */
module WireTurns {
  import opened Wrappers
  import opened AgentTypes
  import opened Wires
  import opened WireReplies
  import opened WireStream

  /** The sender is not done with it: for a prompt, it holds the lock. */
  predicate Underway(stage: Stage) { stage.Begun? || stage.Registered? || stage.Sent? || stage.Failing? }

  /** The router has seen the end of the prompt. */
  ghost predicate Taken(w: Wire, id: nat)
    requires w.taken <= |w.incoming|
  {
    exists i :: 0 <= i < w.taken && w.incoming[i].item.Response? && w.incoming[i].item.id == id
  }

  predicate IsPrompt(w: Wire, id: nat) { id in w.sends && w.sends[id].session.Some? }

  /** A prompt under way holds the lock, and its end is not taken while it does; the running prompts
      are those that were sent and whose end was not taken yet. */
  ghost predicate Locked(w: Wire) {
    && w.taken <= |w.incoming|
    && (w.lock.HeldBy? ==> IsPrompt(w, w.lock.id) && Underway(w.sends[w.lock.id].stage))
    && (forall id :: IsPrompt(w, id) && Underway(w.sends[id].stage) ==> w.lock == HeldBy(id) && !Taken(w, id))
    && (forall id :: id in w.prompts <==> IsPrompt(w, id) && w.sends[id].stage == Returned(true) && !Taken(w, id))
    && (forall id :: id in w.prompts ==> Some(w.prompts[id]) == w.sends[id].session)
  }

  /** What the router sends is about the arrival it says. */
  ghost predicate SendingOk(w: Wire, s: Sending) {
    match s.call
    case WriteCall(_, _, _, _, _) => true
    case ClosedCall => w.routerDone && s.arrival == |w.incoming| && s.source == |w.heard|
    case TurnEndedCall(session, id, result) =>
      && s.arrival < w.taken <= |w.incoming| && w.incoming[s.arrival] == Arrival(s.source, Response(id, result))
      && id in w.sends && w.sends[id].session == Some(session) && w.sends[id].stage == Returned(true)
    case UpdateCall(session, u) =>
      s.arrival < w.taken <= |w.incoming| && w.incoming[s.arrival] == Arrival(s.source, Notice(SessionUpdate(session, u)))
    case _ => s.arrival < w.taken <= |w.incoming|
  }

  ghost predicate Direct(calls: seq<Sending>) {
    forall p, q :: 0 <= p < q < |calls| && !calls[p].call.WriteCall? && !calls[q].call.WriteCall?
      ==> calls[p].arrival < calls[q].arrival
  }

  /** What was taken was sent on: updates, and the ends of prompts that were sent. */
  ghost predicate SentOn(w: Wire, i: nat)
    requires i < |w.incoming|
  {
    var a := w.incoming[i];
    match a.item
    case Notice(SessionUpdate(session, u)) => Sending(i, a.source, UpdateCall(session, u)) in w.calls
    case Response(id, result) =>
      IsPrompt(w, id) && w.sends[id].stage == Returned(true)
      ==> Sending(i, a.source, TurnEndedCall(w.sends[id].session.value, id, result)) in w.calls
    case _ => true
  }

  ghost predicate Called(w: Wire) {
    && w.taken <= |w.incoming|
    && Direct(w.calls)
    && (forall p :: 0 <= p < |w.calls| ==> SendingOk(w, w.calls[p]))
    && (forall i :: 0 <= i < w.taken ==> SentOn(w, i))
    && (w.routerDone ==> w.readerDone && w.taken == |w.incoming| && Sending(|w.incoming|, |w.heard|, ClosedCall) in w.calls)
  }

  ghost predicate Whole(w: Wire) { Routed(w) && Streamed(w) && Locked(w) && Called(w) }

  // ----- The sender's moves -----

  /** A request's stage changes, and no prompt's end is involved. */
  lemma StageCalled(w: Wire, d: Wire)
    requires Called(w)
    requires d.incoming == w.incoming && d.taken == w.taken && d.calls == w.calls && d.heard == w.heard
    requires d.routerDone == w.routerDone && d.readerDone == w.readerDone
    requires forall id :: id in w.sends && w.sends[id].stage.Returned? ==> id in d.sends && d.sends[id] == w.sends[id]
    requires forall id :: IsPrompt(d, id) && d.sends[id].stage == Returned(true) ==>
               (IsPrompt(w, id) && w.sends[id].stage == Returned(true)) || !Taken(w, id)
    ensures Called(d)
  {
    forall p | 0 <= p < |d.calls| ensures SendingOk(d, d.calls[p]) {
      assert SendingOk(w, w.calls[p]);
    }
    forall i | 0 <= i < d.taken ensures SentOn(d, i) {
      assert SentOn(w, i);
    }
  }

  lemma SameTaken(w: Wire, d: Wire)
    requires w.taken <= |w.incoming| && d.incoming == w.incoming && d.taken == w.taken
    ensures forall id :: Taken(w, id) <==> Taken(d, id)
  {
  }

  /** Nobody's end was taken who is only now getting an id. */
  lemma NewNotTaken(w: Wire)
    requires Routed(w) && Streamed(w) && w.taken <= |w.incoming|
    ensures !Taken(w, w.nextId)
  {
    forall i | 0 <= i < w.taken && w.incoming[i].item.Response? ensures w.incoming[i].item.id != w.nextId {
      assert FromResolution(w, w.incoming[i]);
    }
  }

  lemma BeginTurn(w: Wire, session: Option<string>)
    requires Whole(w) && Can(w, Begin(session))
    ensures Locked(BeginRequest(w, session)) && Called(BeginRequest(w, session))
  {
    hide Taken, Called, Streamed, Matched;
    var d := BeginRequest(w, session);
    NewNotTaken(w);
    SameTaken(w, d);
    assert w.nextId !in w.sends by { BeginKept(w, session); }
    StageCalled(w, d);
  }

  lemma StageTurn(w: Wire, d: Wire, id: nat, stage: Stage)
    requires Locked(w) && Called(w) && id in w.sends && Underway(w.sends[id].stage) && Underway(stage)
    requires d == w.(sends := d.sends, waiters := d.waiters)
    requires id in d.sends && d.sends == w.sends[id := w.sends[id].(stage := stage, since := d.sends[id].since, early := d.sends[id].early)]
    ensures Locked(d) && Called(d)
  {
    hide Taken, Called;
    SameTaken(w, d);
    StageCalled(w, d);
  }

  lemma UnregisterTurn(w: Wire, id: nat)
    requires Locked(w) && Called(w) && Can(w, Unregister(id))
    ensures Locked(UnregisterWaiter(w, id)) && Called(UnregisterWaiter(w, id))
  {
    hide Taken, Called;
    var d := UnregisterWaiter(w, id);
    SameTaken(w, d);
    StageCalled(w, d);
  }

  lemma CommitTurn(w: Wire, id: nat)
    requires Locked(w) && Called(w) && Can(w, Commit(id))
    ensures Locked(CommitPrompt(w, id)) && Called(CommitPrompt(w, id))
  {
    hide Taken, Called;
    var d := CommitPrompt(w, id);
    SameTaken(w, d);
    StageCalled(w, d);
  }

  // ----- The reader's moves -----

  /** The stream grows behind what the router has taken. */
  lemma GrowTurn(w: Wire, d: Wire)
    requires Locked(w) && Called(w) && !w.routerDone
    requires w.incoming <= d.incoming && d.taken == w.taken && d.sends == w.sends && d.lock == w.lock && d.prompts == w.prompts
    requires d.calls == w.calls && d.routerDone == w.routerDone
    ensures Locked(d) && Called(d)
  {
    assert forall id :: Taken(w, id) <==> Taken(d, id);
    forall p | 0 <= p < |d.calls| ensures SendingOk(d, d.calls[p]) {
      assert SendingOk(w, w.calls[p]);
    }
    forall i | 0 <= i < d.taken ensures SentOn(d, i) {
      assert SentOn(w, i);
    }
  }

  lemma {:induction false} DrainGrows(w: Wire, order: seq<nat>)
    ensures var d := DrainFrom(w, order);
            w.incoming <= d.incoming && d == w.(waiters := d.waiters, resolved := d.resolved, incoming := d.incoming)
    decreases |order|
  {
    hide Resolve;
    if order != [] {
      ResolveGrows(w, order[0], |w.heard|, ClosedError());
      DrainGrows(Resolve(w, order[0], |w.heard|, ClosedError()), order[1..]);
    }
  }

  lemma ResolveGrows(w: Wire, id: nat, source: nat, result: TurnResult)
    ensures var d := Resolve(w, id, source, result);
            w.incoming <= d.incoming && d == w.(waiters := d.waiters, resolved := d.resolved, incoming := d.incoming)
  {
    if id in w.waiters && w.waiters[id].Ordered? {
      ResolveTells(w, id, source, result);
    }
  }

  lemma ResolveTells(w: Wire, id: nat, source: nat, result: TurnResult)
    requires id in w.waiters && w.waiters[id].Ordered?
    ensures Resolve(w, id, source, result)
            == w.(waiters := w.waiters - {id}, resolved := w.resolved + [Resolution(id, source, result)],
                  incoming := w.incoming + [Arrival(source, Response(id, result))])
  {
  }

  lemma HearGrows(w: Wire, message: Message)
    ensures var d := HearOne(w, message);
            w.incoming <= d.incoming
            && d == w.(waiters := d.waiters, resolved := d.resolved, incoming := d.incoming, heard := w.heard + [message])
  {
    hide Resolve;
    if message.Answer? {
      ResolveGrows(w.(heard := w.heard + [message]), message.id, |w.heard|, message.result);
    }
  }

  // ----- The router's moves -----

  lemma MoreCalls(w: Wire, d: Wire, s: Sending)
    requires Called(w) && d.calls == w.calls + [s] && d.incoming == w.incoming && w.taken <= d.taken <= |d.incoming|
    requires d.heard == w.heard && d.sends == w.sends && d.readerDone == w.readerDone && (w.routerDone ==> d.routerDone)
    requires SendingOk(d, s)
    requires s.call.WriteCall? || (s.arrival >= w.taken && !w.routerDone)
    requires forall i :: w.taken <= i < d.taken ==> SentOn(d, i)
    requires d.routerDone ==> d.readerDone && d.taken == |d.incoming| && (w.routerDone || s == Sending(|d.incoming|, |d.heard|, ClosedCall))
    ensures Called(d)
  {
    forall p | 0 <= p < |d.calls| ensures SendingOk(d, d.calls[p]) {
      if p < |w.calls| { assert SendingOk(w, w.calls[p]); }
    }
    forall p | 0 <= p < |w.calls| && !w.calls[p].call.WriteCall? && !s.call.WriteCall? ensures w.calls[p].arrival < s.arrival {
      assert SendingOk(w, w.calls[p]);
    }
    forall i | 0 <= i < d.taken ensures SentOn(d, i) {
      if i < w.taken {
        assert SentOn(w, i);
      }
    }
    assert s in d.calls;
  }

  lemma SameCalls(w: Wire, d: Wire)
    requires Called(w) && d.calls == w.calls && d.incoming == w.incoming && w.taken <= d.taken <= |d.incoming|
    requires d.heard == w.heard && d.sends == w.sends && d.readerDone == w.readerDone && d.routerDone == w.routerDone
    requires forall i :: w.taken <= i < d.taken ==> SentOn(d, i)
    ensures Called(d)
  {
    forall p | 0 <= p < |d.calls| ensures SendingOk(d, d.calls[p]) {
      assert SendingOk(w, w.calls[p]);
    }
    forall i | 0 <= i < d.taken ensures SentOn(d, i) {
      if i < w.taken {
        assert SentOn(w, i);
      }
    }
  }

  /** The end of a prompt that is taken was not taken before, and its sender is done. */
  lemma EndIsNew(w: Wire)
    requires Whole(w) && w.taken < |w.incoming| && w.incoming[w.taken].item.Response? && w.lock.Free?
    ensures var id := w.incoming[w.taken].item.id;
            && IsPrompt(w, id) && !Underway(w.sends[id].stage) && !Taken(w, id)
            && (id in w.prompts <==> w.sends[id].stage == Returned(true))
  {
    var id := w.incoming[w.taken].item.id;
    assert FromResolution(w, w.incoming[w.taken]);
    forall i | 0 <= i < w.taken && w.incoming[i].item.Response? ensures w.incoming[i].item.id != id {
    }
  }

  /** Past another arrival than the end of a prompt, the running prompts are the same. */
  lemma PastOther(w: Wire, d: Wire)
    requires Locked(w) && w.taken < |w.incoming| && !w.incoming[w.taken].item.Response?
    requires d.incoming == w.incoming && d.taken == w.taken + 1 && d.sends == w.sends && d.lock == w.lock && d.prompts == w.prompts
    ensures Locked(d)
  {
    assert forall id :: Taken(w, id) ==> Taken(d, id);
    assert forall id :: Taken(d, id) ==> Taken(w, id);
  }

  lemma PastEnd(w: Wire, d: Wire, id: nat)
    requires Locked(w) && w.taken < |w.incoming| && w.incoming[w.taken].item.Response? && w.incoming[w.taken].item.id == id
    requires w.lock.Free? && IsPrompt(w, id) && (id in w.prompts <==> w.sends[id].stage == Returned(true))
    requires d.incoming == w.incoming && d.taken == w.taken + 1 && d.sends == w.sends && d.lock == w.lock
    requires d.prompts == w.prompts - {id}
    ensures Locked(d)
  {
    forall k ensures Taken(d, k) <==> Taken(w, k) || k == id {
      if Taken(w, k) {
        var i :| 0 <= i < w.taken && w.incoming[i].item.Response? && w.incoming[i].item.id == k;
        assert d.incoming[i].item.id == k;
      }
      if k == id {
        assert d.incoming[w.taken].item.id == k;
      }
    }
  }

  lemma TakeEnd(w: Wire, finds: Finds)
    requires Whole(w) && Can(w, Take(finds)) && w.incoming[w.taken].item.Response?
    ensures Locked(TakeOne(w, finds)) && Called(TakeOne(w, finds))
  {
    hide Taken, Streamed, Matched, Called, Locked, DropReply;
    var d, a := TakeOne(w, finds), w.incoming[w.taken];
    var id := a.item.id;
    EndIsNew(w);
    if id in w.prompts {
      PastEnd(w, d, id);
      var s := Sending(w.taken, a.source, TurnEndedCall(w.prompts[id], id, a.item.result));
      assert Some(w.prompts[id]) == w.sends[id].session by { OwnSession(w, id); }
      assert !w.routerDone by { NotDone(w); }
      assert s in d.calls;
      MoreCalls(w, d, s);
    } else {
      assert w.prompts - {id} == w.prompts;
      PastEnd(w, d, id);
      SameCalls(w, d);
    }
  }

  lemma OwnSession(w: Wire, id: nat)
    requires Locked(w) && id in w.prompts
    ensures id in w.sends && Some(w.prompts[id]) == w.sends[id].session
  {
  }

  lemma NotDone(w: Wire)
    requires Called(w) && w.taken < |w.incoming|
    ensures !w.routerDone
  {
  }

  /** What the router does with any other arrival, in terms of what it sends. */
  lemma TakeShape(w: Wire, finds: Finds) returns (s: Option<Sending>)
    requires w.taken < |w.incoming| && !w.incoming[w.taken].item.Response?
    ensures var d, a := TakeOne(w, finds), w.incoming[w.taken];
            && d == w.(taken := w.taken + 1, calls := d.calls, replies := d.replies, tasks := d.tasks)
            && match s {
              case None => d.calls == w.calls && !(a.item.Notice? && a.item.note.SessionUpdate?)
              case Some(s) =>
                && d.calls == w.calls + [s] && s.arrival == w.taken && s.source == a.source
                && !s.call.ClosedCall? && !s.call.TurnEndedCall? && !s.call.WriteCall?
                && (s.call.UpdateCall? ==> a.item == Notice(SessionUpdate(s.call.session, s.call.update)))
                && (a.item.Notice? && a.item.note.SessionUpdate? ==> s.call == UpdateCall(a.item.note.session, a.item.note.update))
            }
  {
    hide DropReply, Allows, Follow;
    var d, a := TakeOne(w, finds), w.incoming[w.taken];
    TakeLeaves(w, finds);
    match a.item
    case Notice(SessionUpdate(session, u)) => s := Some(Sending(w.taken, a.source, UpdateCall(session, u)));
    case Notice(ElicitationDone(id)) => s := Some(Sending(w.taken, a.source, ElicitationComplete(id)));
    case Notice(OtherNote) => s := None;
    case Request(token, request) =>
      s := RequestShape(w.(taken := w.taken + 1), w.taken, a.source, token, RouteOf(w.caps, request, token, finds));
  }

  lemma RequestShape(w: Wire, arrival: nat, source: nat, token: Token, route: Route) returns (s: Option<Sending>)
    ensures var d := Follow(w, arrival, source, token, route);
            match s
            case None => d.calls == w.calls && !route.ToApp?
            case Some(s) => route.ToApp? && d.calls == w.calls + [s] && s == Sending(arrival, source, route.call)
  {
    hide DropReply;
    s := if route.ToApp? then Some(Sending(arrival, source, route.call)) else None;
  }

  lemma TakeOther(w: Wire, finds: Finds)
    requires Whole(w) && w.taken < |w.incoming| && !w.incoming[w.taken].item.Response?
    ensures Locked(TakeOne(w, finds)) && Called(TakeOne(w, finds))
  {
    hide Streamed, Matched, Called, Locked, TakeOne, Taken;
    var d := TakeOne(w, finds);
    var s := TakeShape(w, finds);
    PastOther(w, d);
    NotDone(w);
    match s
    case None => SameCalls(w, d);
    case Some(s) =>
      assert s in d.calls;
      MoreCalls(w, d, s);
  }

  lemma EndTurn(w: Wire)
    requires Whole(w) && Can(w, EndRouter)
    ensures Locked(Go(w, EndRouter)) && Called(Go(w, EndRouter))
  {
    hide Streamed, Matched, Called, DropReply, Taken;
    var d := Go(w, EndRouter);
    SameTaken(w, d);
    MoreCalls(w, d, Sending(|w.incoming|, |w.heard|, ClosedCall));
  }

  lemma FinishTurn(w: Wire, k: nat, before: Option<string>)
    requires Whole(w) && k < |w.tasks|
    ensures Locked(FinishTask(w, k, before)) && Called(FinishTask(w, k, before))
  {
    hide Streamed, Matched, Called, DropReply, Taken, Follow;
    var d, task := FinishTask(w, k, before), w.tasks[k];
    FinishLeaves(w, k, before);
    SameTaken(w, d);
    Over(w);
    var s := RequestShape(w.(tasks := w.tasks[..k] + w.tasks[k + 1..]), task.token.serial, task.token.serial, task.token, Done(task, before));
    match s
    case None => SameCalls(w, d);
    case Some(s) => MoreCalls(w, d, s);
  }

  // ----- Any move -----

  lemma TurnKept(w: Wire, m: Move)
    requires Whole(w) && Can(w, m)
    ensures Locked(Go(w, m)) && Called(Go(w, m))
  {
    hide Matched, Streamed, Locked, Called, HearOne, TakeOne, FinishTask, DrainFrom, DropAll, DropReply;
    match m
    case LockPrompts(session) => LockTurn(w, session);
    case Begin(session) => BeginTurn(w, session);
    case Register(id) => StageTurn(w, Go(w, m), id, Registered);
    case Post(id) => StageTurn(w, Go(w, m), id, if w.outOpen then Stage.Sent else Failing);
    case Unregister(id) => UnregisterTurn(w, id);
    case Commit(id) => CommitTurn(w, id);
    case Hear(message) =>
      HearGrows(w, message);
      NotOver(w);
      GrowTurn(w, Go(w, m));
    case Drain(order) =>
      DrainGrows(w, order);
      NotOver(w);
      GrowTurn(w, Go(w, m));
    case Take(finds) =>
      if w.incoming[w.taken].item.Response? { TakeEnd(w, finds); } else { TakeOther(w, finds); }
    case EndRouter => EndTurn(w);
    case Finish(k, before) => FinishTurn(w, k, before);
    case _ => AppTurn(w, Go(w, m));
  }

  lemma LockTurn(w: Wire, session: string)
    requires Locked(w) && Called(w) && w.lock.Free?
    ensures var d := w.(lock := Held(session)); Locked(d) && Called(d)
  {
    hide Taken, Called;
    var d := w.(lock := Held(session));
    SameTaken(w, d);
    StageCalled(w, d);
  }

  lemma Over(w: Wire)
    requires Called(w)
    ensures w.routerDone ==> w.readerDone && w.taken == |w.incoming|
  {
  }

  lemma NotOver(w: Wire)
    requires Called(w) && !w.readerDone
    ensures !w.routerDone
  {
  }

  lemma AppTurn(w: Wire, d: Wire)
    requires Locked(w) && Called(w)
    requires d == w.(outOpen := d.outOpen, handled := d.handled, callsOpen := d.callsOpen, replies := d.replies)
    ensures Locked(d) && Called(d)
  {
    hide Taken, Called;
    SameTaken(w, d);
    StageCalled(w, d);
  }

  lemma WholeKept(w: Wire, m: Move)
    requires Whole(w) && Can(w, m)
    ensures Whole(Go(w, m))
  {
    hide Matched, Streamed, Locked, Called, Go, Can;
    MoveKept(w, m);
    StreamKept(w, m);
    TurnKept(w, m);
  }

  lemma AlwaysWhole(w: Wire)
    requires Reachable(w)
    ensures Whole(w)
  {
    hide Go, Can, Reachable;
    forall v, m | Whole(v) && Can(v, m) ensures Whole(Go(v, m)) {
      WholeKept(v, m);
    }
    Holds(Whole, w);
  }

  // ----- What the app can rely on -----

  /** The router never misses a prompt: when it takes the end of one that `start_prompt` reported as
      sent, the prompt is among the running ones. */
  lemma RouterFindsThePrompt(w: Wire, finds: Finds)
    requires Reachable(w) && Can(w, Take(finds)) && w.incoming[w.taken].item.Response?
    ensures var id := w.incoming[w.taken].item.id;
            IsPrompt(w, id) && (id in w.prompts <==> w.sends[id].stage == Returned(true))
  {
    hide Reachable, Whole;
    AlwaysWhole(w);
    EndIsNew(w);
  }

  lemma EndOk(w: Wire, p: nat)
    requires Whole(w) && p < |w.calls| && w.calls[p].call.TurnEndedCall?
    ensures var s := w.calls[p];
            && s.arrival < w.taken <= |w.incoming|
            && w.incoming[s.arrival] == Arrival(s.source, Response(s.call.id, s.call.result))
            && IsPrompt(w, s.call.id) && w.sends[s.call.id].session == Some(s.call.session)
            && w.sends[s.call.id].stage == Returned(true)
  {
    hide Routed, Streamed, Locked;
    assert SendingOk(w, w.calls[p]);
  }

  /** No prompt's end reaches the app twice. */
  lemma TurnsEndOnce(w: Wire, p: nat, q: nat)
    requires Reachable(w) && p < q < |w.calls| && w.calls[p].call.TurnEndedCall? && w.calls[q].call.TurnEndedCall?
    ensures w.calls[p].call.id != w.calls[q].call.id
  {
    hide Reachable, Whole;
    AlwaysWhole(w);
    EndOk(w, p);
    EndOk(w, q);
    Apart(w, p, q);
  }

  lemma Apart(w: Wire, p: nat, q: nat)
    requires Whole(w) && p < q < |w.calls| && w.calls[p].call.TurnEndedCall? && w.calls[q].call.TurnEndedCall?
    requires w.calls[q].arrival < |w.incoming|
    ensures w.calls[p].arrival < w.calls[q].arrival
    ensures var a, b := w.incoming[w.calls[p].arrival].item, w.incoming[w.calls[q].arrival].item;
            a.Response? && b.Response? ==> a.id != b.id
  {
    hide Routed, Locked;
  }

  /** The end of a prompt comes after every update the agent wrote before its answer. The answer is
      the first one with the prompt's id; without one, the end is the drain's, after everything. */
  lemma TurnEndsAfterItsUpdates(w: Wire, p: nat, h: nat)
    requires Reachable(w) && p < |w.calls| && w.calls[p].call.TurnEndedCall?
    requires h < w.calls[p].source && h < |w.heard| && w.heard[h].Note? && w.heard[h].note.SessionUpdate?
    ensures var note := w.heard[h].note;
            exists q :: 0 <= q < p && w.calls[q].call == UpdateCall(note.session, note.update) && w.calls[q].source == h
  {
    hide Reachable, Whole;
    AlwaysWhole(w);
    EndOk(w, p);
    var j := w.calls[p].arrival;
    var i := ArrivalOf(w, h, j);
    var note := w.heard[h].note;
    var update := Sending(i, h, UpdateCall(note.session, note.update));
    assert update in w.calls by { SentAlready(w, i); }
    var q :| 0 <= q < |w.calls| && w.calls[q] == update;
    Before(w, q, p);
  }

  /** The update's place in the stream, before that of what was heard later. */
  lemma ArrivalOf(w: Wire, h: nat, j: nat) returns (i: nat)
    requires Whole(w) && h < |w.heard| && w.heard[h].Note? && j < |w.incoming| && h < w.incoming[j].source
    ensures i < j && w.incoming[i] == Arrival(h, Notice(w.heard[h].note))
  {
    hide Routed, Locked, Called;
    assert Passed(w, h);
    i :| 0 <= i < |w.incoming| && w.incoming[i] == Arrival(h, Notice(w.heard[h].note));
  }

  lemma SentAlready(w: Wire, i: nat)
    requires Whole(w) && i < w.taken <= |w.incoming| && w.incoming[i].item.Notice? && w.incoming[i].item.note.SessionUpdate?
    ensures var a := w.incoming[i];
            Sending(i, a.source, UpdateCall(a.item.note.session, a.item.note.update)) in w.calls
  {
    hide Routed, Streamed, Locked;
    assert SentOn(w, i);
  }

  lemma Before(w: Wire, q: nat, p: nat)
    requires Whole(w) && q < |w.calls| && p < |w.calls| && !w.calls[p].call.WriteCall? && !w.calls[q].call.WriteCall?
    requires q != p && w.calls[q].arrival <= w.calls[p].arrival
    ensures q < p
  {
    hide Routed, Streamed, Locked;
  }

  /** Where the end came from: the first answer with the prompt's id heard since it was registered,
      or the drain, if there was none. */
  lemma TurnEndsWithItsAnswer(w: Wire, p: nat)
    requires Reachable(w) && p < |w.calls| && w.calls[p].call.TurnEndedCall?
    ensures var s := w.calls[p];
            var id, result := s.call.id, s.call.result;
            && IsPrompt(w, id) && w.sends[id].session == Some(s.call.session) && w.sends[id].early
            && w.sends[id].since <= s.source <= |w.heard| && NoAnswer(w.heard, w.sends[id].since, s.source, id)
            && if s.source < |w.heard| then w.heard[s.source] == Message.Answer(id, result)
               else w.readerDone && result == ClosedError()
  {
    hide Reachable, Whole;
    AlwaysWhole(w);
    EndOk(w, p);
    EndResolved(w, w.calls[p].arrival);
  }

  lemma EndResolved(w: Wire, i: nat)
    requires Whole(w) && i < |w.incoming| && w.incoming[i].item.Response?
    ensures var a := w.incoming[i];
            ResolutionOk(w, Resolution(a.item.id, a.source, a.item.result), false)
  {
    hide Locked, Called, ResolutionOk;
    var a := w.incoming[i];
    assert FromResolution(w, a);
    var r := Resolution(a.item.id, a.source, a.item.result);
    var k :| 0 <= k < |w.resolved| && w.resolved[k] == r;
  }

  /** Once the router has stopped: a prompt that was reported as sent has exactly one end among the
      calls if its waiter was registered before the drain, and none if it was registered after; a
      prompt that could not be sent has none. Last of all the calls about arrivals comes `Closed`. */
  lemma EveryTurnEnds(w: Wire, id: nat)
    requires Reachable(w) && w.routerDone && IsPrompt(w, id)
    ensures w.sends[id].stage == Returned(true) && w.sends[id].early <==>
            exists p :: 0 <= p < |w.calls| && w.calls[p].call.TurnEndedCall? && w.calls[p].call.id == id
    ensures exists p :: 0 <= p < |w.calls| && w.calls[p].call.ClosedCall?
              && forall q :: 0 <= q < |w.calls| && q != p && !w.calls[q].call.WriteCall? ==> q < p
  {
    hide Reachable, Whole;
    AlwaysWhole(w);
    if w.sends[id].stage == Returned(true) && w.sends[id].early {
      var p := EndIsThere(w, id);
    }
    forall p | 0 <= p < |w.calls| && w.calls[p].call.TurnEndedCall? && w.calls[p].call.id == id
      ensures w.sends[id].stage == Returned(true) && w.sends[id].early
    {
      EndOk(w, p);
      EndResolved(w, w.calls[p].arrival);
    }
    var p := ClosedIsLast(w);
  }

  lemma EndIsThere(w: Wire, id: nat) returns (p: nat)
    requires Whole(w) && w.routerDone && IsPrompt(w, id) && w.sends[id].stage == Returned(true) && w.sends[id].early
    ensures p < |w.calls| && w.calls[p].call.TurnEndedCall? && w.calls[p].call.id == id
  {
    hide Locked, ResolutionOk;
    assert id !in w.waiters by {
      assert forall k :: k in w.waiters ==> WaiterOk(w, k);
    }
    var k :| 0 <= k < |w.resolved| && w.resolved[k].id == id;
    var r := w.resolved[k];
    assert Told(w, r);
    var i :| 0 <= i < |w.incoming| && w.incoming[i] == Arrival(r.source, Response(id, r.result));
    assert SentOn(w, i);
    var s := Sending(i, r.source, TurnEndedCall(w.sends[id].session.value, id, r.result));
    p :| 0 <= p < |w.calls| && w.calls[p] == s;
  }

  lemma ClosedIsLast(w: Wire) returns (p: nat)
    requires Whole(w) && w.routerDone
    ensures p < |w.calls| && w.calls[p].call.ClosedCall?
    ensures forall q :: 0 <= q < |w.calls| && q != p && !w.calls[q].call.WriteCall? ==> q < p
  {
    hide Routed, Streamed, Locked;
    var s := Sending(|w.incoming|, |w.heard|, ClosedCall);
    p :| 0 <= p < |w.calls| && w.calls[p] == s;
    forall q | 0 <= q < |w.calls| && q != p && !w.calls[q].call.WriteCall? ensures q < p {
      assert SendingOk(w, w.calls[q]);
      Before(w, q, p);
    }
  }

  /** While the connection lasts: a prompt that was sent and has not ended for the app still waits
      for its answer, or its end is on the stream. */
  lemma RunningPromptsAreSomewhere(w: Wire, id: nat)
    requires Reachable(w)
    ensures id in w.prompts <==>
              && IsPrompt(w, id) && w.sends[id].stage == Returned(true)
              && (id in w.waiters || exists i :: w.taken <= i < |w.incoming| && w.incoming[i].item.Response? && w.incoming[i].item.id == id)
  {
    hide Reachable, Whole;
    AlwaysWhole(w);
    if id in w.prompts {
      RunningSomewhere(w, id);
    } else if IsPrompt(w, id) && w.sends[id].stage == Returned(true) {
      NotRunningNowhere(w, id);
    }
  }

  lemma RunningSomewhere(w: Wire, id: nat)
    requires Whole(w) && id in w.prompts
    ensures IsPrompt(w, id) && w.sends[id].stage == Returned(true)
    ensures id in w.waiters || exists i :: w.taken <= i < |w.incoming| && w.incoming[i].item.Response? && w.incoming[i].item.id == id
  {
    hide Called;
    if id !in w.waiters {
      var k :| 0 <= k < |w.resolved| && w.resolved[k].id == id;
      assert Told(w, w.resolved[k]);
      var i :| 0 <= i < |w.incoming| && w.incoming[i] == Arrival(w.resolved[k].source, Response(id, w.resolved[k].result));
      assert !Taken(w, id);
      assert i >= w.taken;
    }
  }

  lemma NotRunningNowhere(w: Wire, id: nat)
    requires Whole(w) && id !in w.prompts && IsPrompt(w, id) && w.sends[id].stage == Returned(true)
    ensures id !in w.waiters && forall i :: w.taken <= i < |w.incoming| && w.incoming[i].item.Response? ==> w.incoming[i].item.id != id
  {
    hide Called;
    assert Taken(w, id);
    var k :| 0 <= k < w.taken && w.incoming[k].item.Response? && w.incoming[k].item.id == id;
    assert FromResolution(w, w.incoming[k]);
    EndResolved(w, k);
  }
}
