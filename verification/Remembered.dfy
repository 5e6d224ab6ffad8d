/** The threads the agent panel remembers between runs: settings.rs. */
module Remembered {
  datatype SavedThread = SavedThread(agent: string, session: string, cluster: string, title: string, cwd: string, updated: int)

  const MAX_THREADS: nat := 30

  predicate Is(t: SavedThread, agent: string, session: string) { t.agent == agent && t.session == session }

  function Without(ts: seq<SavedThread>, agent: string, session: string): seq<SavedThread> {
    if ts == [] then []
    else (if Is(ts[0], agent, session) then [] else [ts[0]]) + Without(ts[1..], agent, session)
  }

  function Take(ts: seq<SavedThread>, n: nat): seq<SavedThread> { if |ts| <= n then ts else ts[..n] }

  function Remembering(ts: seq<SavedThread>, t: SavedThread): seq<SavedThread> {
    Take([t] + Without(ts, t.agent, t.session), MAX_THREADS)
  }

  class AgentState {
    var threads: seq<SavedThread>

    constructor ()
      ensures threads == []
    {
      threads := [];
    }

    method Retain(agent: string, session: string)
      modifies this
      ensures threads == Without(old(threads), agent, session)
    {
      hide Is;
      var kept, i := [], 0;
      assert threads[0..] == threads;
      while i < |threads|
        invariant 0 <= i <= |threads| && threads == old(threads)
        invariant kept + Without(threads[i..], agent, session) == Without(threads, agent, session)
      {
        assert threads[i..][0] == threads[i] && threads[i..][1..] == threads[i + 1..];
        var one := if Is(threads[i], agent, session) then [] else [threads[i]];
        assert kept + (one + Without(threads[i + 1..], agent, session)) == (kept + one) + Without(threads[i + 1..], agent, session);
        kept := kept + one;
        i := i + 1;
      }
      assert threads[i..] == [] && kept + [] == kept;
      threads := kept;
    }

    /** Adds or refreshes a thread at the top. */
    method Remember(t: SavedThread)
      modifies this
      ensures threads == Remembering(old(threads), t)
    {
      Retain(t.agent, t.session);
      threads := [t] + threads;
      if |threads| > MAX_THREADS {
        threads := threads[..MAX_THREADS];
      }
    }

    method Forget(agent: string, session: string)
      modifies this
      ensures threads == Without(old(threads), agent, session)
    {
      Retain(agent, session);
    }

    method Apply(ops: seq<Op>)
      modifies this
      ensures threads == After(old(threads), ops)
    {
      hide Remembering, Without;
      var i := 0;
      assert ops[0..] == ops;
      while i < |ops|
        invariant 0 <= i <= |ops| && After(threads, ops[i..]) == After(old(threads), ops)
      {
        assert ops[i..][0] == ops[i] && ops[i..][1..] == ops[i + 1..];
        match ops[i] {
          case Remember(t) => Remember(t);
          case Forget(agent, session) => Forget(agent, session);
        }
        i := i + 1;
      }
      assert ops[i..] == [];
    }
  }

  // ----- Any history -----

  datatype Op = Remember(thread: SavedThread) | Forget(agent: string, session: string)

  function After(ts: seq<SavedThread>, ops: seq<Op>): seq<SavedThread>
    decreases |ops|
  {
    if ops == [] then ts
    else match ops[0]
      case Remember(t) => After(Remembering(ts, t), ops[1..])
      case Forget(agent, session) => After(Without(ts, agent, session), ops[1..])
  }

  /** The same without a bound: the most recent first. */
  function Unbounded(ts: seq<SavedThread>, ops: seq<Op>): seq<SavedThread>
    decreases |ops|
  {
    if ops == [] then ts
    else match ops[0]
      case Remember(t) => Unbounded([t] + Without(ts, t.agent, t.session), ops[1..])
      case Forget(agent, session) => Unbounded(Without(ts, agent, session), ops[1..])
  }

  ghost predicate NoRepeats(ts: seq<SavedThread>) {
    forall i, j :: 0 <= i < j < |ts| ==> !Is(ts[j], ts[i].agent, ts[i].session)
  }

  lemma {:induction false} WithoutIs(ts: seq<SavedThread>, agent: string, session: string)
    ensures forall t :: t in Without(ts, agent, session) <==> t in ts && !Is(t, agent, session)
  {
    hide Is;
    if ts != [] {
      WithoutIs(ts[1..], agent, session);
      assert ts == [ts[0]] + ts[1..];
    }
  }

  lemma {:induction false} WithoutOnce(ts: seq<SavedThread>, agent: string, session: string)
    requires NoRepeats(ts)
    ensures NoRepeats(Without(ts, agent, session))
  {
    if ts != [] {
      var rest := ts[1..];
      assert forall i :: 0 <= i < |rest| ==> rest[i] == ts[i + 1];
      WithoutOnce(rest, agent, session);
      WithoutIs(rest, agent, session);
      var kept := Without(rest, agent, session);
      forall j | 0 <= j < |kept| ensures !Is(kept[j], ts[0].agent, ts[0].session) {
        assert kept[j] in rest;
      }
      assert Without(ts, agent, session) == kept || Without(ts, agent, session) == [ts[0]] + kept;
    }
  }

  lemma {:induction false} WithoutAppend(a: seq<SavedThread>, b: seq<SavedThread>, agent: string, session: string)
    ensures Without(a + b, agent, session) == Without(a, agent, session) + Without(b, agent, session)
  {
    hide Is;
    if a == [] {
      assert a + b == b;
    } else {
      assert (a + b)[1..] == a[1..] + b;
      WithoutAppend(a[1..], b, agent, session);
    }
  }

  /** A thread that is not there is not missed; of threads without repeats at most one goes. */
  lemma {:induction false} WithoutLength(ts: seq<SavedThread>, agent: string, session: string)
    requires NoRepeats(ts)
    ensures |ts| <= |Without(ts, agent, session)| + 1 && |Without(ts, agent, session)| <= |ts|
    ensures (forall i :: 0 <= i < |ts| ==> !Is(ts[i], agent, session)) ==> Without(ts, agent, session) == ts
  {
    if ts != [] {
      WithoutLength(ts[1..], agent, session);
      assert forall i :: 0 < i < |ts| ==> ts[i] == ts[1..][i - 1];
      assert ts == [ts[0]] + ts[1..];
    }
  }

  lemma TopNoRepeats(ts: seq<SavedThread>, t: SavedThread)
    requires NoRepeats(ts)
    ensures NoRepeats([t] + Without(ts, t.agent, t.session))
  {
    var rest := Without(ts, t.agent, t.session);
    WithoutIs(ts, t.agent, t.session);
    WithoutOnce(ts, t.agent, t.session);
    forall j | 0 <= j < |rest| ensures !Is(rest[j], t.agent, t.session) {
      assert rest[j] in rest;
    }
  }

  /** What is kept is a front of what there would be without the bound. */
  lemma FrontKept(a: seq<SavedThread>, u: seq<SavedThread>, op: Op)
    requires a <= u && |a| <= MAX_THREADS && NoRepeats(u)
    ensures After(a, [op]) <= Unbounded(u, [op]) && |After(a, [op])| <= MAX_THREADS && NoRepeats(Unbounded(u, [op]))
  {
    var rest := u[|a|..];
    assert u == a + rest && [op][1..] == [];
    var agent := match op case Remember(t) => t.agent case Forget(agent, _) => agent;
    var session := match op case Remember(t) => t.session case Forget(_, session) => session;
    WithoutAppend(a, rest, agent, session);
    WithoutLength(a, agent, session);
    WithoutOnce(u, agent, session);
    assert Without(a, agent, session) <= Without(u, agent, session);
    if op.Remember? {
      TopNoRepeats(u, op.thread);
    }
  }

  lemma {:induction false} FrontOf(a: seq<SavedThread>, u: seq<SavedThread>, ops: seq<Op>)
    requires a <= u && |a| <= MAX_THREADS && NoRepeats(u)
    ensures After(a, ops) <= Unbounded(u, ops) && |After(a, ops)| <= MAX_THREADS && NoRepeats(Unbounded(u, ops))
    decreases |ops|
  {
    hide NoRepeats;
    if ops != [] {
      FrontKept(a, u, ops[0]);
      FrontOf(After(a, [ops[0]]), Unbounded(u, [ops[0]]), ops[1..]);
    }
  }

  /** For every history: at most 30 threads are kept, none twice, and they are the most recent ones of
      all that were remembered and not forgotten, in that order. */
  lemma KeptAreTheMostRecent(ops: seq<Op>)
    ensures After([], ops) <= Unbounded([], ops) && |After([], ops)| <= 30
    ensures var u := Unbounded([], ops);
            forall i, j :: 0 <= i < j < |u| ==> u[i].agent != u[j].agent || u[i].session != u[j].session
    ensures NoRepeats(After([], ops)) && NoRepeats(Unbounded([], ops))
  {
    FrontOf([], [], ops);
    var a, u := After([], ops), Unbounded([], ops);
    forall i, j | 0 <= i < j < |a| ensures !Is(a[j], a[i].agent, a[i].session) {
      assert a[i] == u[i] && a[j] == u[j];
    }
  }

  // ----- Without forgetting -----

  predicate Remembers(ops: seq<Op>) { forall i :: 0 <= i < |ops| ==> ops[i].Remember? }

  /** Dropping the oldest before or after makes no difference. */
  lemma TakeTwice(u: seq<SavedThread>, t: SavedThread)
    requires NoRepeats(u)
    ensures Remembering(Take(u, MAX_THREADS), t) == Take([t] + Without(u, t.agent, t.session), MAX_THREADS)
  {
    if |u| > MAX_THREADS {
      var a, rest := u[..MAX_THREADS], u[MAX_THREADS..];
      assert u == a + rest;
      WithoutAppend(a, rest, t.agent, t.session);
      WithoutLength(a, t.agent, t.session);
      var k, r := Without(a, t.agent, t.session), Without(rest, t.agent, t.session);
      assert [t] + (k + r) == ([t] + k) + r;
      assert |[t] + k| >= MAX_THREADS;
      assert ([t] + k + r)[..MAX_THREADS] == ([t] + k)[..MAX_THREADS];
    }
  }

  lemma {:induction false} FullFront(u: seq<SavedThread>, ops: seq<Op>)
    requires NoRepeats(u) && Remembers(ops)
    ensures After(Take(u, MAX_THREADS), ops) == Take(Unbounded(u, ops), MAX_THREADS)
    decreases |ops|
  {
    hide NoRepeats;
    if ops != [] {
      var t := ops[0].thread;
      TakeTwice(u, t);
      TopNoRepeats(u, t);
      FullFront([t] + Without(u, t.agent, t.session), ops[1..]);
    }
  }

  /** While nothing is forgotten: exactly the first 30 of all, the most recent first. */
  lemma FirstThirtyAreKept(ops: seq<Op>)
    requires Remembers(ops)
    ensures var all := Unbounded([], ops);
            After([], ops) == if |all| <= 30 then all else all[..30]
  {
    FullFront([], ops);
  }

  // ----- Recency -----

  predicate Concerns(op: Op, t: SavedThread) {
    match op
    case Remember(s) => s.agent == t.agent && s.session == t.session
    case Forget(agent, session) => agent == t.agent && session == t.session
  }

  /** The thread was last remembered at position `d` of the history, and not forgotten since. */
  ghost predicate LastAt(t: SavedThread, ops: seq<Op>, d: nat) {
    d < |ops| && ops[d] == Op.Remember(t) && forall k :: d < k < |ops| ==> !Concerns(ops[k], t)
  }

  ghost predicate Descending(dates: seq<nat>) {
    forall i, j :: 0 <= i < j < |dates| ==> dates[i] > dates[j]
  }

  /** The threads are in the order of when they were last remembered, the latest first. */
  ghost predicate Dated(u: seq<SavedThread>, ops: seq<Op>, dates: seq<nat>) {
    |dates| == |u| && Descending(dates) && forall i :: 0 <= i < |u| ==> LastAt(u[i], ops, dates[i])
  }

  function Undated(u: seq<SavedThread>, dates: seq<nat>, agent: string, session: string): (ds: seq<nat>)
    requires |dates| == |u|
    ensures |ds| == |Without(u, agent, session)|
  {
    if u == [] then []
    else (if Is(u[0], agent, session) then [] else [dates[0]]) + Undated(u[1..], dates[1..], agent, session)
  }

  lemma {:induction false} UndatedFrom(u: seq<SavedThread>, dates: seq<nat>, agent: string, session: string, i: nat) returns (k: nat)
    requires |dates| == |u| && i < |Without(u, agent, session)|
    ensures k < |u| && Without(u, agent, session)[i] == u[k] && Undated(u, dates, agent, session)[i] == dates[k]
    ensures !Is(u[k], agent, session)
    decreases |u|
  {
    hide Is;
    if Is(u[0], agent, session) {
      k := UndatedFrom(u[1..], dates[1..], agent, session, i);
      k := k + 1;
    } else if i == 0 {
      k := 0;
    } else {
      k := UndatedFrom(u[1..], dates[1..], agent, session, i - 1);
      k := k + 1;
    }
  }

  lemma {:induction false} UndatedDescends(u: seq<SavedThread>, dates: seq<nat>, agent: string, session: string)
    requires |dates| == |u| && Descending(dates)
    ensures Descending(Undated(u, dates, agent, session))
    decreases |u|
  {
    hide Is;
    if u != [] {
      var rest, ds := u[1..], dates[1..];
      assert forall i :: 0 <= i < |ds| ==> ds[i] == dates[i + 1];
      UndatedDescends(rest, ds, agent, session);
      var n := Undated(rest, ds, agent, session);
      forall j | 0 <= j < |n| ensures dates[0] > n[j] {
        var k := UndatedFrom(rest, ds, agent, session, j);
      }
      assert Undated(u, dates, agent, session) == n || Undated(u, dates, agent, session) == [dates[0]] + n;
    }
  }

  /** One more operation takes the threads it concerns out, and leaves the others their dates. */
  lemma LaterDated(u: seq<SavedThread>, ops: seq<Op>, dates: seq<nat>, op: Op, agent: string, session: string)
    requires Dated(u, ops, dates)
    requires agent == (match op case Remember(t) => t.agent case Forget(a, _) => a)
    requires session == (match op case Remember(t) => t.session case Forget(_, s) => s)
    ensures Dated(Without(u, agent, session), ops + [op], Undated(u, dates, agent, session))
  {
    hide Undated;
    UndatedDescends(u, dates, agent, session);
    var w, ds := Without(u, agent, session), Undated(u, dates, agent, session);
    forall i | 0 <= i < |w| ensures LastAt(w[i], ops + [op], ds[i]) {
      var k := UndatedFrom(u, dates, agent, session, i);
      assert LastAt(u[k], ops, dates[k]);
      assert !Concerns(op, u[k]);
    }
  }

  lemma TopDated(w: seq<SavedThread>, ops: seq<Op>, dates: seq<nat>, t: SavedThread)
    requires ops != [] && ops[|ops| - 1] == Op.Remember(t) && Dated(w, ops, dates)
    requires forall i :: 0 <= i < |dates| ==> dates[i] < |ops| - 1
    ensures Dated([t] + w, ops, [|ops| - 1] + dates)
  {
  }

  lemma {:induction false} UnboundedIsDated(ops: seq<Op>) returns (dates: seq<nat>)
    ensures Dated(Unbounded([], ops), ops, dates)
    decreases |ops|
  {
    hide Dated, Without, Undated;
    if ops == [] {
      dates := [];
      NoneDated();
    } else {
      var n := |ops| - 1;
      var before, op := ops[..n], ops[n];
      var ds := UnboundedIsDated(before);
      var u := Unbounded([], before);
      assert ops == before + [op];
      UnboundedMore([], before, op);
      var agent := match op case Remember(t) => t.agent case Forget(agent, _) => agent;
      var session := match op case Remember(t) => t.session case Forget(_, session) => session;
      assert |ds| == |u| by { SameCount(u, before, ds); }
      LaterDated(u, before, ds, op, agent, session);
      dates := Undated(u, ds, agent, session);
      assert [op][1..] == [];
      if op.Remember? {
        EarlierDates(u, before, ds, agent, session);
        TopDated(Without(u, agent, session), ops, dates, op.thread);
        dates := [n] + dates;
      }
    }
  }

  lemma NoneDated()
    ensures Dated([], [], [])
  {
  }

  lemma SameCount(u: seq<SavedThread>, ops: seq<Op>, dates: seq<nat>)
    requires Dated(u, ops, dates)
    ensures |dates| == |u|
  {
  }

  lemma EarlierDates(u: seq<SavedThread>, ops: seq<Op>, dates: seq<nat>, agent: string, session: string)
    requires Dated(u, ops, dates)
    ensures forall i :: 0 <= i < |Undated(u, dates, agent, session)| ==> Undated(u, dates, agent, session)[i] < |ops|
  {
    hide Undated;
    forall i | 0 <= i < |Undated(u, dates, agent, session)| ensures Undated(u, dates, agent, session)[i] < |ops| {
      var k := UndatedFrom(u, dates, agent, session, i);
      assert LastAt(u[k], ops, dates[k]);
    }
  }

  lemma {:induction false} UnboundedMore(ts: seq<SavedThread>, ops: seq<Op>, op: Op)
    ensures Unbounded(ts, ops + [op]) == Unbounded(Unbounded(ts, ops), [op])
    decreases |ops|
  {
    hide Without;
    if ops == [] {
      assert ops + [op] == [op];
    } else {
      assert (ops + [op])[1..] == ops[1..] + [op];
      match ops[0]
      case Remember(t) => UnboundedMore([t] + Without(ts, t.agent, t.session), ops[1..], op);
      case Forget(agent, session) => UnboundedMore(Without(ts, agent, session), ops[1..], op);
    }
  }

  /** Without the bound, every thread that was remembered and not forgotten since is there. */
  lemma {:induction false} AllAreThere(t: SavedThread, ops: seq<Op>, d: nat)
    requires LastAt(t, ops, d)
    ensures t in Unbounded([], ops)
    decreases |ops|
  {
    hide Without;
    var n := |ops| - 1;
    var before, op := ops[..n], ops[n];
    assert ops == before + [op];
    UnboundedMore([], before, op);
    assert [op][1..] == [];
    var u := Unbounded([], before);
    if d < n {
      assert before[d] == ops[d] && forall k :: d < k < n ==> before[k] == ops[k];
      AllAreThere(t, before, d);
      match op
      case Remember(s) => WithoutIs(u, s.agent, s.session);
      case Forget(agent, session) => WithoutIs(u, agent, session);
    }
  }

  /** So what is kept is in the order of when it was last remembered, the latest first, and nothing
      kept was remembered anew or forgotten since. */
  lemma KeptAreInOrder(ops: seq<Op>) returns (dates: seq<nat>)
    ensures Dated(After([], ops), ops, dates)
  {
    KeptAreTheMostRecent(ops);
    hide LastAt;
    var all := UnboundedIsDated(ops);
    var a, u := After([], ops), Unbounded([], ops);
    dates := all[..|a|];
    assert forall i :: 0 <= i < |a| ==> a[i] == u[i];
  }
}
