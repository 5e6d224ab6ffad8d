/** The prompts of a connection that the app still has to hear the end of. */
module WireOut {
  import opened Wrappers
  import opened AgentTypes
  import opened Wires
  import opened WireReplies
  import opened WireStream
  import opened WireTurns
  import opened WireTokens
  import opened Sums
  import AgentRuns

  /** The app has handled the prompt's end. */
  ghost predicate EndHandled(w: Wire, id: nat) {
    exists p :: 0 <= p < w.handled && p < |w.calls| && w.calls[p].call.TurnEndedCall? && w.calls[p].call.id == id
  }

  /** Sent for the session, and not ended for the app. */
  ghost predicate Out(w: Wire, id: nat, session: string) {
    && id in w.sends && w.sends[id].session == Some(session) && w.sends[id].stage == Returned(true) && !EndHandled(w, id)
  }

  ghost predicate NotClosed(w: Wire) {
    forall p :: 0 <= p < w.handled && p < |w.calls| ==> !w.calls[p].call.ClosedCall?
  }

  /** Nothing was sent or handled yet. */
  ghost predicate Unused(w: Wire) {
    w.handled == 0 && forall id :: id in w.sends ==> w.sends[id].session.None?
  }

  lemma ReachMore(w: Wire, m: Move)
    requires Reachable(w) && Can(w, m)
    ensures Reachable(Go(w, m)) && Go(w, m).conn == w.conn
  {
    hide Can, Go;
    SameConn(w, m);
    var ms :| Path(Fresh(w.conn, w.caps), ms, w);
    OneFurther(Fresh(w.conn, w.caps), ms, w, m);
  }

  lemma {:induction false} OneFurther(w: Wire, ms: seq<Move>, d: Wire, m: Move)
    requires Path(w, ms, d) && Can(d, m)
    ensures Path(w, ms + [m], Go(d, m))
    decreases |ms|
  {
    hide Go, Can;
    if ms == [] {
      assert ms + [m] == [m] && [m][1..] == [];
    } else {
      OneFurther(Go(w, ms[0]), ms[1..], d, m);
      assert (ms + [m])[1..] == ms[1..] + [m];
    }
  }

  lemma SameConn(w: Wire, m: Move)
    requires Can(w, m)
    ensures Go(w, m).conn == w.conn && Go(w, m).caps == w.caps
  {
    hide TakeOne, FinishTask, DrainFrom, HearOne, DropAll, Forward;
    match m
    case Hear(message) => HearGrows(w, message);
    case Drain(order) => DrainGrows(w, order);
    case Take(finds) => TakeLeaves(w, finds);
    case Finish(k, before) => FinishLeaves(w, k, before);
    case _ => MiscConn(w, m);
  }

  lemma MiscConn(w: Wire, m: Move)
    requires Can(w, m) && !m.Hear? && !m.Drain? && !m.Take? && !m.Finish?
    ensures Go(w, m).conn == w.conn && Go(w, m).caps == w.caps
  {
    hide DropAll;
  }

  lemma FreshReached(conn: nat, caps: Caps)
    ensures Reachable(Fresh(conn, caps)) && Unused(Fresh(conn, caps))
  {
    assert Path(Fresh(conn, caps), [], Fresh(conn, caps));
  }

  // ----- What moves do to it -----

  /** Calls are only added, and the handled ones stay. */
  lemma CallsGrow(w: Wire, m: Move)
    requires Can(w, m)
    ensures var d := Go(w, m);
            w.calls <= d.calls && d.handled == if m.Handle? then w.handled + 1 else w.handled
  {
    hide TakeOne, FinishTask, DrainFrom, HearOne, DropAll;
    match m
    case Hear(message) => HearGrows(w, message);
    case Drain(order) => DrainGrows(w, order);
    case Take(finds) => TakeCalls(w, finds);
    case Finish(k, before) =>
      var task := w.tasks[k];
      FollowCalls(w.(tasks := w.tasks[..k] + w.tasks[k + 1..]), task.token.serial, task.token.serial, task.token, Done(task, before));
      FinishIs(w, k, before);
    case _ =>
  }

  lemma FinishIs(w: Wire, k: nat, before: Option<string>)
    requires k < |w.tasks|
    ensures var task := w.tasks[k];
            FinishTask(w, k, before)
            == Follow(w.(tasks := w.tasks[..k] + w.tasks[k + 1..]), task.token.serial, task.token.serial, task.token, Done(task, before))
  {
  }

  lemma FollowCalls(w: Wire, arrival: nat, source: nat, token: Token, route: Route)
    ensures var d := Follow(w, arrival, source, token, route); w.calls <= d.calls && d.handled == w.handled
  {
    hide DropReply;
  }

  lemma TakeCalls(w: Wire, finds: Finds)
    requires w.taken < |w.incoming|
    ensures w.calls <= TakeOne(w, finds).calls && TakeOne(w, finds).handled == w.handled
  {
    hide TakeOne;
    TakeLeaves(w, finds);
    if w.incoming[w.taken].item.Response? {
      EndCalls(w, finds);
    } else {
      var s := TakeShape(w, finds);
    }
  }

  lemma EndCalls(w: Wire, finds: Finds)
    requires w.taken < |w.incoming| && w.incoming[w.taken].item.Response?
    ensures w.calls <= TakeOne(w, finds).calls
  {
    hide Forward, Follow, RouteOf;
    var a, d := w.incoming[w.taken], w.(taken := w.taken + 1);
    var id := a.item.id;
    if id in w.prompts {
      ForwardCalls(d.(prompts := w.prompts - {id}), w.taken, a.source, TurnEndedCall(w.prompts[id], id, a.item.result));
    }
  }

  lemma ForwardCalls(w: Wire, arrival: nat, source: nat, call: ClientCall)
    ensures w.calls <= Forward(w, arrival, source, call).calls
  {
    hide DropReply;
  }

  /** Moves beside the app's thread change no prompt. */
  lemma PromptsStay(w: Wire, m: Move)
    requires Whole(w) && Can(w, m)
    requires !m.LockPrompts? && !m.Commit? && !m.Handle?
    requires m.Begin? ==> m.of.None?
    requires m.Register? || m.Post? || m.Unregister? ==> m.id in w.sends && w.sends[m.id].session.None?
    ensures var d := Go(w, m);
            && (forall id :: id in w.sends && w.sends[id].session.Some? ==> id in d.sends && d.sends[id] == w.sends[id])
            && (forall id :: id in d.sends && d.sends[id].session.Some? ==> id in w.sends && w.sends[id] == d.sends[id])
            && d.lock == w.lock
  {
    hide TakeOne, FinishTask, DrainFrom, HearOne, DropAll, Matched, Streamed, Locked, Called;
    match m
    case Hear(message) => HearGrows(w, message);
    case Drain(order) => DrainGrows(w, order);
    case Take(finds) => TakeLeaves(w, finds);
    case Finish(k, before) => FinishLeaves(w, k, before);
    case Begin(of) => assert w.nextId !in w.sends by { BeginKept(w, of); }
    case _ =>
  }

  lemma OutStays(w: Wire, d: Wire)
    requires w.handled <= |w.calls| && w.calls <= d.calls && d.handled == w.handled
    requires (forall id :: id in w.sends && w.sends[id].session.Some? ==> id in d.sends && d.sends[id] == w.sends[id])
    requires (forall id :: id in d.sends && d.sends[id].session.Some? ==> id in w.sends && w.sends[id] == d.sends[id])
    ensures forall id, session :: Out(d, id, session) <==> Out(w, id, session)
    ensures NotClosed(w) ==> NotClosed(d)
    ensures Unused(w) ==> Unused(d)
  {
    assert forall id :: EndHandled(d, id) <==> EndHandled(w, id);
  }

  /** A move with the prompt that holds the lock, short of committing it. */
  lemma TalkStays(w: Wire, m: Move)
    requires Whole(w) && Can(w, m) && w.handled <= |w.calls|
    requires m.Begin? || ((m.Register? || m.Post? || m.Unregister?) && w.lock == HeldBy(m.id)) || m.LockPrompts?
    ensures forall id, session :: Out(Go(w, m), id, session) <==> Out(w, id, session)
    ensures NotClosed(w) ==> NotClosed(Go(w, m))
  {
    hide Matched, Streamed, Locked, Called;
    var d := Go(w, m);
    if m.Begin? {
      assert w.nextId !in w.sends by { BeginKept(w, m.of); }
    }
    assert forall id :: EndHandled(d, id) <==> EndHandled(w, id);
  }

  /** Committing a prompt makes it one whose end is still to come. */
  lemma CommitOut(w: Wire, id: nat, session: string)
    requires Whole(w) && Can(w, Commit(id)) && w.sends[id].session == Some(session) && w.handled <= |w.calls|
    ensures var d := Go(w, Commit(id));
            && (forall x, s :: Out(d, x, s) <==> Out(w, x, s) || (x == id && s == session))
            && !Out(w, id, session) && d.handled == w.handled && d.calls == w.calls && (NotClosed(w) ==> NotClosed(d))
            && (forall s :: !Out(w, id, s))
  {
    hide Matched, Streamed, Locked, Called, Whole;
    var d := Go(w, Commit(id));
    assert forall x :: EndHandled(d, x) <==> EndHandled(w, x);
    forall p | 0 <= p < w.handled && w.calls[p].call.TurnEndedCall? ensures w.calls[p].call.id != id {
      EndOk(w, p);
    }
    assert !EndHandled(w, id);
  }

  /** Handling a call takes the end of its prompt off, if it is one. */
  lemma HandleOut(w: Wire)
    requires Can(w, Handle)
    ensures var d, call := Go(w, Handle), w.calls[w.handled].call;
            && (forall x, s :: Out(d, x, s) <==> Out(w, x, s) && !(call.TurnEndedCall? && call.id == x))
            && (NotClosed(w) && !call.ClosedCall? ==> NotClosed(d))
            && d.handled <= |d.calls|
  {
    var d, call := Go(w, Handle), w.calls[w.handled].call;
    forall x ensures EndHandled(d, x) <==> EndHandled(w, x) || (call.TurnEndedCall? && call.id == x) {
      if call.TurnEndedCall? && call.id == x {
        assert d.calls[w.handled].call.id == x;
      }
    }
  }

  /** The end of a prompt that comes next is of one that is out. */
  lemma EndIsOut(w: Wire)
    requires Reachable(w) && w.handled < |w.calls| && w.calls[w.handled].call.TurnEndedCall?
    ensures Out(w, w.calls[w.handled].call.id, w.calls[w.handled].call.session)
  {
    hide Reachable, Whole;
    AlwaysWhole(w);
    EndOk(w, w.handled);
    forall p | 0 <= p < w.handled && w.calls[p].call.TurnEndedCall? ensures w.calls[p].call.id != w.calls[w.handled].call.id {
      TurnsEndOnce(w, p, w.handled);
    }
  }

  /** The request of the next call came over this connection. */
  lemma NextToken(w: Wire)
    requires Reachable(w) && w.callsOpen && w.handled < |w.calls|
    ensures var token := AgentRuns.TokenOf(w.calls[w.handled].call);
            token.Some? ==> token.value.conn == w.conn
  {
    hide Reachable, Sum, AgentRuns.TokenOf;
    AlwaysConserved(w);
    AskedOnce(w.heard, w.conn);
    var token := AgentRuns.TokenOf(w.calls[w.handled].call);
    if token.Some? {
      var rest := w.calls[w.handled..];
      assert rest[0] == w.calls[w.handled];
      SumOneOf(rest, 0, OfSending);
      assert token.value in OfSending(rest[0]);
      assert token.value in WireTokens.Asked(w.heard, w.conn);
    }
  }

  lemma HandleToken(w: Wire)
    requires Reachable(w) && Can(w, Handle)
    ensures w.handled <= |w.calls| && Go(w, Handle).handled <= |w.calls|
    ensures ForApp(Go(w, Handle)) == ForApp(w) + OfToken(AgentRuns.TokenOf(w.calls[w.handled].call))
  {
    hide Sum, AgentRuns.TokenOf, Reachable;
    var s := w.calls[w.handled];
    assert w.calls[..w.handled + 1] == w.calls[..w.handled] + [s];
    SumAppend(w.calls[..w.handled], [s], OfSending);
    SumOne(s, OfSending);
  }

  /** A prompt that is out is running, or its end waits for the app. */
  lemma OutIsSomewhere(w: Wire, id: nat, session: string)
    requires Reachable(w) && Out(w, id, session)
    ensures id in w.prompts || exists p :: w.handled <= p < |w.calls| && w.calls[p].call.TurnEndedCall? && w.calls[p].call.id == id
  {
    hide Reachable, Whole;
    AlwaysWhole(w);
    if id !in w.prompts {
      var p := TakenIsSent(w, id);
      assert !(p < w.handled);
    }
  }

  lemma TakenIsSent(w: Wire, id: nat) returns (p: nat)
    requires Whole(w) && id in w.sends && w.sends[id].session.Some? && w.sends[id].stage == Returned(true) && id !in w.prompts
    ensures p < |w.calls| && w.calls[p].call.TurnEndedCall? && w.calls[p].call.id == id
  {
    hide Routed, Streamed;
    assert IsPrompt(w, id);
    assert Taken(w, id);
    var i :| 0 <= i < w.taken && w.incoming[i].item.Response? && w.incoming[i].item.id == id;
    assert SentOn(w, i);
    var s := Sending(i, w.incoming[i].source, TurnEndedCall(w.sends[id].session.value, id, w.incoming[i].item.result));
    p :| 0 <= p < |w.calls| && w.calls[p] == s;
  }
}
