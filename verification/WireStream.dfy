/** The incoming stream: everything the agent wrote, in order, with the ends of prompts where their
    answers were. */
module WireStream {
  import opened Wrappers
  import opened AgentTypes
  import opened Wires
  import opened WireReplies

  /** One arrival for a message, in the order of the messages; the drain's come after them all. */
  ghost predicate InOrder(w: Wire) {
    && (forall i :: 0 <= i < |w.incoming| ==> w.incoming[i].source <= |w.heard|)
    && (forall i, j :: 0 <= i < j < |w.incoming| ==>
          w.incoming[i].source < w.incoming[j].source || w.incoming[j].source == |w.heard|)
    && (!w.readerDone ==> forall i :: 0 <= i < |w.incoming| ==> w.incoming[i].source < |w.heard|)
  }

  ghost predicate Arrived(w: Wire, a: Arrival) { a in w.incoming }

  /** What a message becomes. */
  ghost predicate Passed(w: Wire, h: nat)
    requires h < |w.heard|
  {
    match w.heard[h]
    case Note(note) => Arrived(w, Arrival(h, Notice(note)))
    case Ask(request) => Arrived(w, Arrival(h, Item.Request(Token(w.conn, h), request)))
    case _ => true
  }

  ghost predicate Told(w: Wire, r: Resolution) { Arrived(w, Arrival(r.source, Response(r.id, r.result))) }

  ghost predicate FromResolution(w: Wire, a: Arrival) {
    a.item.Response? ==>
      && a.item.id in w.sends && w.sends[a.item.id].session.Some?
      && Resolution(a.item.id, a.source, a.item.result) in w.resolved
  }

  ghost predicate OneResponse(incoming: seq<Arrival>) {
    forall i, j :: 0 <= i < j < |incoming| && incoming[i].item.Response? && incoming[j].item.Response?
      ==> incoming[i].item.id != incoming[j].item.id
  }

  ghost predicate Streamed(w: Wire) {
    && InOrder(w)
    && (forall h :: 0 <= h < |w.heard| ==> Passed(w, h))
    && (forall i :: 0 <= i < |w.incoming| ==> FromResolution(w, w.incoming[i]))
    && (forall r :: r in w.resolved && r.id in w.sends && w.sends[r.id].session.Some? ==> Told(w, r))
    && OneResponse(w.incoming)
  }

  // ----- Kept by every move -----

  /** The stream and what it came from stay; requests keep their sessions. */
  lemma SameStream(w: Wire, d: Wire)
    requires Streamed(w) && Routed(w)
    requires d.heard == w.heard && d.incoming == w.incoming && d.resolved == w.resolved && d.readerDone == w.readerDone
    requires d.conn == w.conn
    requires forall id :: id in w.sends ==> id in d.sends && d.sends[id].session == w.sends[id].session
    ensures Streamed(d)
  {
    forall h | 0 <= h < |d.heard| ensures Passed(d, h) {
      assert Passed(w, h);
    }
    forall i | 0 <= i < |d.incoming| ensures FromResolution(d, d.incoming[i]) {
      assert FromResolution(w, w.incoming[i]);
    }
    forall r | r in d.resolved && r.id in d.sends && d.sends[r.id].session.Some? ensures Told(d, r) {
      var i :| 0 <= i < |w.resolved| && w.resolved[i] == r;
      assert ResolutionOk(w, w.resolved[i], false);
      assert Told(w, r);
    }
  }

  lemma KeptArrivals(w: Wire, d: Wire, h: nat)
    requires h < |w.heard| && Passed(w, h) && d.conn == w.conn
    requires w.heard <= d.heard && w.incoming <= d.incoming
    ensures Passed(d, h)
  {
  }

  /** The stream grows by at most the message that is heard now. */
  lemma OrderKept(w: Wire, d: Wire, message: Message)
    requires InOrder(w) && !w.readerDone && !d.readerDone && d.heard == w.heard + [message]
    requires d.incoming == w.incoming || (|d.incoming| == |w.incoming| + 1 && d.incoming[..|w.incoming|] == w.incoming
                                          && d.incoming[|w.incoming|].source == |w.heard|)
    ensures InOrder(d)
  {
    forall i | 0 <= i < |w.incoming| ensures d.incoming[i] == w.incoming[i] {
      assert d.incoming[..|w.incoming|][i] == w.incoming[i];
    }
  }

  lemma OneStill(incoming: seq<Arrival>, a: Arrival)
    requires OneResponse(incoming)
    requires a.item.Response? ==> forall i :: 0 <= i < |incoming| && incoming[i].item.Response? ==> incoming[i].item.id != a.item.id
    ensures OneResponse(incoming + [a])
  {
  }

  /** A message is heard, and at most one arrival follows from it. */
  lemma HearStream(w: Wire, message: Message)
    requires Streamed(w) && Routed(w) && !w.readerDone && !message.Answer?
    ensures Streamed(HearOne(w, message))
  {
    hide Matched, InOrder, OneResponse;
    var d := HearOne(w, message);
    if d.incoming != w.incoming {
      OneStill(w.incoming, d.incoming[|w.incoming|]);
      assert d.incoming == w.incoming + [d.incoming[|w.incoming|]];
      assert d.incoming[..|w.incoming|] == w.incoming;
    }
    OrderKept(w, d, message);
    forall h | 0 <= h < |d.heard| ensures Passed(d, h) {
      if h < |w.heard| { KeptArrivals(w, d, h); }
    }
    forall i | 0 <= i < |d.incoming| ensures FromResolution(d, d.incoming[i]) {
      if i < |w.incoming| { assert FromResolution(w, w.incoming[i]); }
    }
    forall r | r in d.resolved && r.id in d.sends && d.sends[r.id].session.Some? ensures Told(d, r) {
      assert Told(w, r);
    }
  }

  lemma NoResponseYet(w: Wire, id: nat)
    requires Streamed(w) && Routed(w) && id in w.waiters
    ensures forall i :: 0 <= i < |w.incoming| && w.incoming[i].item.Response? ==> w.incoming[i].item.id != id
  {
    NotResolved(w, id);
    forall i | 0 <= i < |w.incoming| && w.incoming[i].item.Response? ensures w.incoming[i].item.id != id {
      assert FromResolution(w, w.incoming[i]);
    }
  }

  /** The waiter of a prompt is told on the stream; another's is not. */
  lemma TellOne(w: Wire, d: Wire, r: Resolution)
    requires (forall i :: 0 <= i < |w.incoming| ==> FromResolution(w, w.incoming[i]))
    requires (forall q :: q in w.resolved && q.id in w.sends && w.sends[q.id].session.Some? ==> Told(w, q))
    requires d.sends == w.sends && d.resolved == w.resolved + [r] && r.id in w.sends
    requires d.incoming == w.incoming + if w.sends[r.id].session.Some? then [Arrival(r.source, Response(r.id, r.result))] else []
    ensures forall i :: 0 <= i < |d.incoming| ==> FromResolution(d, d.incoming[i])
    ensures forall q :: q in d.resolved && q.id in d.sends && d.sends[q.id].session.Some? ==> Told(d, q)
  {
    assert r in d.resolved;
    forall i | 0 <= i < |d.incoming| ensures FromResolution(d, d.incoming[i]) {
      if i < |w.incoming| { assert FromResolution(w, w.incoming[i]); }
    }
    forall q | q in d.resolved && q.id in d.sends && d.sends[q.id].session.Some? ensures Told(d, q) {
      if q in w.resolved {
        assert Told(w, q);
      } else {
        assert q == r && Arrival(r.source, Response(r.id, r.result)) in d.incoming;
      }
    }
  }

  lemma Kind(w: Wire, id: nat)
    requires id in w.waiters && WaiterOk(w, id)
    ensures id in w.sends && (w.waiters[id].Ordered? <==> w.sends[id].session.Some?)
  {
  }

  lemma ResolveStream(w: Wire, id: nat, result: TurnResult)
    requires Streamed(w) && Routed(w) && !w.readerDone && id in w.waiters
    ensures Streamed(HearOne(w, Message.Answer(id, result)))
  {
    hide Matched, InOrder, OneResponse, FromResolution, Told, WaiterOk;
    var message := Message.Answer(id, result);
    var d, r := HearOne(w, message), Resolution(id, |w.heard|, result);
    assert WaiterOk(w, id) by { Waits(w, id); }
    Kind(w, id);
    NoResponseYet(w, id);
    var a := Arrival(r.source, Response(id, result));
    assert d.incoming == w.incoming + if w.sends[id].session.Some? then [a] else [];
    OneStill(w.incoming, a);
    assert d.incoming[..|w.incoming|] == w.incoming;
    OrderKept(w, d, message);
    TellOne(w, d, r);
    forall h | 0 <= h < |d.heard| ensures Passed(d, h) {
      if h < |w.heard| { KeptArrivals(w, d, h); }
    }
  }

  lemma Waits(w: Wire, id: nat)
    requires Routed(w) && id in w.waiters
    ensures WaiterOk(w, id)
  {
  }

  /** An answer nobody waits for leaves the stream as it is. */
  lemma IgnoreStream(w: Wire, id: nat, result: TurnResult)
    requires Streamed(w) && Routed(w) && !w.readerDone && id !in w.waiters
    ensures Streamed(HearOne(w, Message.Answer(id, result)))
  {
    hide Matched, InOrder, OneResponse;
    var d := HearOne(w, Message.Answer(id, result));
    OrderKept(w, d, Message.Answer(id, result));
    forall h | 0 <= h < |d.heard| ensures Passed(d, h) {
      if h < |w.heard| { KeptArrivals(w, d, h); }
    }
    forall i | 0 <= i < |d.incoming| ensures FromResolution(d, d.incoming[i]) {
      assert FromResolution(w, w.incoming[i]);
    }
    forall r | r in d.resolved && r.id in d.sends && d.sends[r.id].session.Some? ensures Told(d, r) {
      assert Told(w, r);
    }
  }

  // ----- The drain -----

  /** As `Streamed`, while the drain is under way. */
  ghost predicate Draining(w: Wire) {
    && (forall i :: 0 <= i < |w.incoming| ==> w.incoming[i].source <= |w.heard|)
    && (forall i, j :: 0 <= i < j < |w.incoming| ==>
          w.incoming[i].source < w.incoming[j].source || w.incoming[j].source == |w.heard|)
    && (forall h :: 0 <= h < |w.heard| ==> Passed(w, h))
    && (forall i :: 0 <= i < |w.incoming| ==> FromResolution(w, w.incoming[i]))
    && (forall r :: r in w.resolved && r.id in w.sends && w.sends[r.id].session.Some? ==> Told(w, r))
    && OneResponse(w.incoming)
    && Matched(w, true) && !w.readerDone
  }

  lemma DrainOne(w: Wire, id: nat)
    requires Draining(w) && id in w.waiters
    ensures Draining(Resolve(w, id, |w.heard|, ClosedError()))
  {
    var at := |w.heard|;
    var d, r := Resolve(w, id, at, ClosedError()), Resolution(id, at, ClosedError());
    assert WaiterOk(w, id);
    ResolveKept(w, id, at, ClosedError(), true);
    forall i | 0 <= i < |w.incoming| && w.incoming[i].item.Response? ensures w.incoming[i].item.id != id {
      assert FromResolution(w, w.incoming[i]);
    }
    DrainOneStream(w, d, r);
  }

  lemma DrainOneStream(w: Wire, d: Wire, r: Resolution)
    requires Draining(w) && r.id in w.waiters && WaiterOk(w, r.id) && r == Resolution(r.id, |w.heard|, ClosedError())
    requires d == Resolve(w, r.id, |w.heard|, ClosedError()) && Matched(d, true)
    requires forall i :: 0 <= i < |w.incoming| && w.incoming[i].item.Response? ==> w.incoming[i].item.id != r.id
    ensures Draining(d)
  {
    hide Matched, WaiterOk, OneResponse, FromResolution, Told;
    Kind(w, r.id);
    var a := Arrival(r.source, Response(r.id, r.result));
    assert d.incoming == w.incoming + if w.sends[r.id].session.Some? then [a] else [];
    OneStill(w.incoming, a);
    TellOne(w, d, r);
    forall h | 0 <= h < |d.heard| ensures Passed(d, h) {
      KeptArrivals(w, d, h);
    }
  }

  lemma {:induction false} DrainStream(w: Wire, order: seq<nat>)
    requires Draining(w)
    requires forall i :: 0 <= i < |order| ==> order[i] in w.waiters
    requires forall i, j :: 0 <= i < j < |order| ==> order[i] != order[j]
    ensures Draining(DrainFrom(w, order)) && DrainFrom(w, order).heard == w.heard
    decreases |order|
  {
    hide Draining;
    if order != [] {
      DrainOne(w, order[0]);
      assert forall i :: 0 <= i < |order[1..]| ==> order[1..][i] == order[i + 1];
      DrainStream(Resolve(w, order[0], |w.heard|, ClosedError()), order[1..]);
    }
  }

  lemma StartDrain(w: Wire)
    requires Routed(w) && Streamed(w) && !w.readerDone
    ensures Draining(w)
  {
    forall i | 0 <= i < |w.resolved| ensures ResolutionOk(w, w.resolved[i], true) {
      assert ResolutionOk(w, w.resolved[i], false);
    }
  }

  lemma EndDrain(w: Wire)
    requires Draining(w)
    ensures Streamed(w.(readerDone := true))
  {
    hide Matched, OneResponse;
    var d := w.(readerDone := true);
    assert forall h :: 0 <= h < |w.heard| ==> Passed(w, h) ==> Passed(d, h);
    forall i | 0 <= i < |d.incoming| ensures FromResolution(d, d.incoming[i]) {
      assert FromResolution(w, w.incoming[i]);
    }
    forall r | r in d.resolved && r.id in d.sends && d.sends[r.id].session.Some? ensures Told(d, r) {
      assert Told(w, r);
    }
  }

  // ----- Any move -----

  /** Requests are only added, and keep their sessions. */
  lemma SendsStay(w: Wire, m: Move)
    requires Routed(w) && Can(w, m) && !m.Hear? && !m.Drain?
    ensures var d := Go(w, m);
            && d.heard == w.heard && d.incoming == w.incoming && d.resolved == w.resolved && d.readerDone == w.readerDone
            && d.conn == w.conn
            && forall id :: id in w.sends ==> id in d.sends && d.sends[id].session == w.sends[id].session
  {
    hide TakeOne, FinishTask, DropAll, DropReply;
    if !m.Begin? && !m.Register? && !m.Post? && !m.Unregister? && !m.Commit? {
      OtherMoves(w, m);
    }
  }

  lemma StreamKept(w: Wire, m: Move)
    requires Routed(w) && Streamed(w) && Can(w, m)
    ensures Streamed(Go(w, m))
  {
    hide Matched, Streamed, HearOne, TakeOne, FinishTask, DrainFrom, DropAll, DropReply;
    match m
    case Hear(message) =>
      if !message.Answer? {
        HearStream(w, message);
      } else if message.id in w.waiters {
        ResolveStream(w, message.id, message.result);
      } else {
        IgnoreStream(w, message.id, message.result);
      }
    case Drain(order) =>
      StartDrain(w);
      DrainStream(w, order);
      EndDrain(DrainFrom(w, order));
    case _ =>
      SendsStay(w, m);
      SameStream(w, Go(w, m));
  }
}
