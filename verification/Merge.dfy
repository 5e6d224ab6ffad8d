/** One list of alerts from Alertmanager's and Prometheus': merge.rs. Times are whole seconds. */
module AlertMerge {
  import opened Wrappers

  type Labels = map<string, string>

  datatype Severity = Critical | Warning | Info | OtherSeverity(value: string) | NoSeverity

  datatype AlertState = Firing | Pending | Silenced | Inhibited | Unprocessed | Resolved

  /** `details` stands for what neither the merge nor the order looks at. */
  datatype Alert = Alert(fingerprint: string, name: string, labels: Labels, details: string, severity: Severity,
                         state: AlertState, startsAt: Option<int>, startsApprox: bool, activeAt: Option<int>,
                         updatedAt: Option<int>, value: Option<string>, source: string)

  datatype PromAlert = PromAlert(labels: Labels, details: string, state: string, activeAt: Option<int>, value: Option<string>)

  datatype Rule = Rule(name: string, wait: int)

  /** `fingerprintOf` and `severityOf` are the hash and the severity of labels. */
  datatype Options = Options(heartbeat: seq<string>, hidden: seq<string>, rules: seq<Rule>,
                             fingerprintOf: Labels -> string, severityOf: Labels -> Severity)

  // ----- One Prometheus alert -----

  predicate Includes(outer: Labels, inner: Labels) {
    forall k :: k in inner ==> k in outer && outer[k] == inner[k]
  }

  function NameOf(p: PromAlert): Option<string> {
    if "alertname" in p.labels then Some(p.labels["alertname"]) else None
  }

  predicate IsPending(p: PromAlert) { p.state == "pending" }

  /** The entry can stand for the Prometheus alert. */
  predicate Stands(a: Alert, p: PromAlert) { Some(a.name) == NameOf(p) && Includes(a.labels, p.labels) }

  function FirstFor(alerts: seq<Alert>, p: PromAlert): (r: Option<nat>)
    ensures r.Some? ==> r.value < |alerts| && Stands(alerts[r.value], p)
    ensures r.None? ==> forall i :: 0 <= i < |alerts| ==> !Stands(alerts[i], p)
  {
    if alerts == [] then None
    else if Stands(alerts[0], p) then Some(0)
    else match FirstFor(alerts[1..], p)
      case Some(i) => Some(i + 1)
      case None => assert forall i :: 0 < i < |alerts| ==> alerts[i] == alerts[1..][i - 1]; None
  }

  function Refreshed(a: Alert, p: PromAlert): Alert {
    a.(value := p.value, activeAt := if a.activeAt.Some? then a.activeAt else p.activeAt)
  }

  function WaitOf(rules: seq<Rule>, name: string): int {
    if rules == [] then 0
    else if rules[0].name == name then (if rules[0].wait > 0 then rules[0].wait else 0)
    else WaitOf(rules[1..], name)
  }

  /** The entry of an alert only Prometheus has. */
  function EntryOf(p: PromAlert, o: Options): Alert
    requires NameOf(p).Some?
  {
    var name := NameOf(p).value;
    var computed := !IsPending(p) && p.activeAt.Some?;
    Alert(o.fingerprintOf(p.labels), name, p.labels, p.details, o.severityOf(p.labels),
          if IsPending(p) then Pending else Firing,
          if computed then Some(p.activeAt.value + WaitOf(o.rules, name)) else None, computed, p.activeAt, None, p.value,
          "Prometheus")
  }

  function Added(alerts: seq<Alert>, p: PromAlert, o: Options): seq<Alert> {
    if NameOf(p).None? then alerts
    else if !IsPending(p) && FirstFor(alerts, p).Some?
    then alerts[FirstFor(alerts, p).value := Refreshed(alerts[FirstFor(alerts, p).value], p)]
    else alerts + [EntryOf(p, o)]
  }

  function Built(alerts: seq<Alert>, prom: seq<PromAlert>, o: Options): seq<Alert>
    decreases |prom|
  {
    if prom == [] then alerts else Built(Added(alerts, prom[0], o), prom[1..], o)
  }

  // ----- What is listed, in which order -----

  predicate Listed(a: Alert, o: Options) { a.name !in o.heartbeat && a.name !in o.hidden }

  function Retained(alerts: seq<Alert>, o: Options): seq<Alert> {
    if alerts == [] then []
    else Retained(alerts[..|alerts| - 1], o) + if Listed(alerts[|alerts| - 1], o) then [alerts[|alerts| - 1]] else []
  }

  function Rank(s: Severity): nat {
    match s
    case Critical => 0
    case Warning => 1
    case Info => 2
    case OtherSeverity(_) => 3
    case NoSeverity => 4
  }

  function Since(a: Alert): Option<int> {
    if a.state.Pending? then a.activeAt else if a.startsAt.Some? then a.startsAt else a.activeAt
  }

  /** No time comes first. */
  predicate Earlier(a: Option<int>, b: Option<int>) {
    b.Some? && (a.None? || a.value < b.value)
  }

  predicate TextLe(a: string, b: string) {
    a == "" || (b != "" && (a[0] < b[0] || (a[0] == b[0] && TextLe(a[1..], b[1..]))))
  }

  /** `a` may stand before `b`: by severity, then the oldest, then name and fingerprint. */
  predicate Le(a: Alert, b: Alert) {
    if Rank(a.severity) != Rank(b.severity) then Rank(a.severity) < Rank(b.severity)
    else if Since(a) != Since(b) then Earlier(Since(a), Since(b))
    else if a.name != b.name then TextLe(a.name, b.name)
    else TextLe(a.fingerprint, b.fingerprint)
  }

  /** Puts an alert behind those it may not stand before. */
  function Insert(a: Alert, sorted: seq<Alert>): seq<Alert> {
    if sorted == [] then [a]
    else if Le(a, sorted[0]) then [a] + sorted
    else [sorted[0]] + Insert(a, sorted[1..])
  }

  /** A stable sort, as the standard library's: the first of equals is put in last, before them. */
  function Sorted(alerts: seq<Alert>): seq<Alert> {
    if alerts == [] then [] else Insert(alerts[0], Sorted(alerts[1..]))
  }

  // ----- The order -----

  lemma {:induction false} TextTotal(a: string, b: string)
    ensures TextLe(a, b) || TextLe(b, a)
    ensures TextLe(a, b) && TextLe(b, a) ==> a == b
    decreases |a|
  {
    if a != "" && b != "" && a[0] == b[0] {
      TextTotal(a[1..], b[1..]);
      assert a == [a[0]] + a[1..] && b == [b[0]] + b[1..];
    }
  }

  lemma {:induction false} TextTransitive(a: string, b: string, c: string)
    requires TextLe(a, b) && TextLe(b, c)
    ensures TextLe(a, c)
    decreases |a|
  {
    if a != "" && a[0] == b[0] == c[0] {
      TextTransitive(a[1..], b[1..], c[1..]);
    }
  }

  lemma LeTotal(a: Alert, b: Alert)
    ensures Le(a, b) || Le(b, a)
  {
    hide TextLe;
    TextTotal(a.name, b.name);
    TextTotal(a.fingerprint, b.fingerprint);
  }

  lemma LeTransitive(a: Alert, b: Alert, c: Alert)
    requires Le(a, b) && Le(b, c)
    ensures Le(a, c)
  {
    hide TextLe;
    if a.name != b.name && b.name != c.name && TextLe(a.name, b.name) && TextLe(b.name, c.name) {
      TextTransitive(a.name, b.name, c.name);
      TextTotal(a.name, b.name);
      TextTotal(b.name, c.name);
    }
    if TextLe(a.fingerprint, b.fingerprint) && TextLe(b.fingerprint, c.fingerprint) {
      TextTransitive(a.fingerprint, b.fingerprint, c.fingerprint);
    }
  }

  ghost predicate Ordered(alerts: seq<Alert>) {
    forall i, j :: 0 <= i < j < |alerts| ==> Le(alerts[i], alerts[j])
  }

  lemma {:induction false} InsertOrders(a: Alert, sorted: seq<Alert>)
    requires Ordered(sorted)
    ensures Ordered(Insert(a, sorted)) && multiset(Insert(a, sorted)) == multiset(sorted) + multiset{a}
    decreases |sorted|
  {
    hide Le;
    if sorted == [] {
    } else if Le(a, sorted[0]) {
      forall j | 0 <= j < |sorted| ensures Le(a, sorted[j]) {
        if j > 0 { LeTransitive(a, sorted[0], sorted[j]); }
      }
    } else {
      var rest := Insert(a, sorted[1..]);
      InsertOrders(a, sorted[1..]);
      LeTotal(a, sorted[0]);
      assert sorted == [sorted[0]] + sorted[1..];
      forall j | 0 <= j < |rest| ensures Le(sorted[0], rest[j]) {
        assert rest[j] in multiset(rest);
        assert rest[j] == a || rest[j] in sorted[1..];
      }
    }
  }

  lemma {:induction false} SortOrders(alerts: seq<Alert>)
    ensures Ordered(Sorted(alerts)) && multiset(Sorted(alerts)) == multiset(alerts)
    decreases |alerts|
  {
    hide Insert, Ordered;
    if alerts == [] {
      NoneOrdered();
    } else {
      SortOrders(alerts[1..]);
      InsertOrders(alerts[0], Sorted(alerts[1..]));
      assert alerts == [alerts[0]] + alerts[1..];
    }
  }

  lemma NoneOrdered()
    ensures Ordered([])
  {
  }

  // ----- The merge, in place -----

  method Find(alerts: seq<Alert>, p: PromAlert) returns (r: Option<nat>)
    ensures r == FirstFor(alerts, p)
  {
    hide Stands;
    var i := 0;
    assert alerts[0..] == alerts;
    while i < |alerts|
      invariant 0 <= i <= |alerts|
      invariant FirstFor(alerts, p) == match FirstFor(alerts[i..], p) { case Some(k) => Some(i + k) case None => None }
    {
      assert alerts[i..][0] == alerts[i] && alerts[i..][1..] == alerts[i + 1..];
      if Stands(alerts[i], p) {
        return Some(i);
      }
      i := i + 1;
    }
    return None;
  }

  /** The merged list. `None` for Alertmanager or Prometheus: there is no such source. */
  method Merge(am: Option<seq<Alert>>, prom: Option<seq<PromAlert>>, o: Options) returns (merged: seq<Alert>)
    ensures merged == Sorted(Retained(Built(OrNone(am), OrNone(prom), o), o))
  {
    hide Added, Sorted, FirstFor, EntryOf;
    var alerts := OrNone(am);
    var ps := OrNone(prom);
    var i := 0;
    assert ps[0..] == ps;
    while i < |ps|
      invariant 0 <= i <= |ps|
      invariant Built(alerts, ps[i..], o) == Built(OrNone(am), ps, o)
    {
      assert ps[i..][0] == ps[i] && ps[i..][1..] == ps[i + 1..];
      alerts := AddOne(alerts, ps[i], o);
      i := i + 1;
    }
    assert ps[i..] == [];
    var kept, k := [], 0;
    while k < |alerts|
      invariant 0 <= k <= |alerts| && kept == Retained(alerts[..k], o)
    {
      assert alerts[..k + 1][..k] == alerts[..k];
      if Listed(alerts[k], o) {
        kept := kept + [alerts[k]];
      }
      k := k + 1;
    }
    assert alerts[..k] == alerts;
    merged := Sorted(kept);
  }

  method AddOne(alerts: seq<Alert>, p: PromAlert, o: Options) returns (after: seq<Alert>)
    ensures after == Added(alerts, p, o)
  {
    hide FirstFor, EntryOf;
    after := alerts;
    if NameOf(p).None? {
      return;
    }
    if !IsPending(p) {
      var existing := Find(alerts, p);
      if existing.Some? {
        after := alerts[existing.value := Refreshed(alerts[existing.value], p)];
        return;
      }
    }
    after := alerts + [EntryOf(p, o)];
  }

  function OrNone<T>(source: Option<seq<T>>): seq<T> {
    match source { case Some(items) => items case None => [] }
  }

  // ----- Conservation -----

  /** Only the value was refreshed, and a missing activity time filled in. */
  predicate Same(a: Alert, b: Alert) {
    b == a.(value := b.value, activeAt := b.activeAt) && (a.activeAt.Some? ==> b.activeAt == a.activeAt)
  }

  /** The Prometheus alerts that get entries of their own, by position, in order. */
  function Origins(alerts: seq<Alert>, prom: seq<PromAlert>, o: Options, at: nat): seq<nat>
    decreases |prom|
  {
    if prom == [] then []
    else (if |Added(alerts, prom[0], o)| > |alerts| then [at] else [])
         + Origins(Added(alerts, prom[0], o), prom[1..], o, at + 1)
  }

  lemma AddedKeeps(alerts: seq<Alert>, p: PromAlert, o: Options)
    ensures var d := Added(alerts, p, o);
            && |alerts| <= |d| <= |alerts| + 1
            && (forall i :: 0 <= i < |alerts| ==> Same(alerts[i], d[i]))
            && (|d| > |alerts| ==> NameOf(p).Some? && d[|alerts|] == EntryOf(p, o))
            && (IsPending(p) && NameOf(p).Some? ==> |d| > |alerts|)
            && (NameOf(p).Some? ==> exists i :: 0 <= i < |d| && Stands(d[i], p))
  {
    hide FirstFor;
    var d := Added(alerts, p, o);
    if NameOf(p).Some? {
      if !IsPending(p) && FirstFor(alerts, p).Some? {
        assert Stands(d[FirstFor(alerts, p).value], p);
      } else {
        assert Stands(d[|alerts|], p);
      }
    }
  }

  lemma SameTwice(a: Alert, b: Alert, c: Alert)
    requires Same(a, b) && Same(b, c)
    ensures Same(a, c)
  {
  }

  lemma SameStands(a: Alert, b: Alert, p: PromAlert)
    requires Same(a, b) && Stands(a, p)
    ensures Stands(b, p)
  {
  }

  /** What was there stays where it is, refreshed at most. */
  lemma {:induction false} BuiltKeeps(alerts: seq<Alert>, prom: seq<PromAlert>, o: Options)
    ensures var d := Built(alerts, prom, o);
            |alerts| <= |d| && forall i :: 0 <= i < |alerts| ==> Same(alerts[i], d[i])
    decreases |prom|
  {
    hide Added, Same;
    if prom == [] {
      forall i | 0 <= i < |alerts| ensures Same(alerts[i], alerts[i]) {
        SameSelf(alerts[i]);
      }
    } else {
      var c, d := Added(alerts, prom[0], o), Built(alerts, prom, o);
      AddedKeeps(alerts, prom[0], o);
      BuiltKeeps(c, prom[1..], o);
      forall i | 0 <= i < |alerts| ensures Same(alerts[i], d[i]) {
        SameTwice(alerts[i], c[i], d[i]);
      }
    }
  }

  lemma SameSelf(a: Alert)
    ensures Same(a, a)
  {
  }

  ghost predicate Ascends(us: seq<nat>, from: nat, end: nat) {
    && (forall k :: 0 <= k < |us| ==> from <= us[k] < end)
    && (forall k, l :: 0 <= k < l < |us| ==> us[k] < us[l])
  }

  lemma AscendsMore(us: seq<nat>, at: nat, end: nat)
    requires Ascends(us, at + 1, end) && at < end
    ensures Ascends(us, at, end) && Ascends([at] + us, at, end)
  {
  }

  lemma AscendsNone(at: nat)
    ensures Ascends([], at, at)
  {
  }

  /** They are in their order. */
  lemma {:induction false} OriginsAscend(alerts: seq<Alert>, prom: seq<PromAlert>, o: Options, at: nat)
    ensures Ascends(Origins(alerts, prom, o, at), at, at + |prom|)
    decreases |prom|
  {
    hide Added, Ascends;
    if prom == [] {
      AscendsNone(at);
    } else {
      var c, rest := Added(alerts, prom[0], o), prom[1..];
      OriginsAscend(c, rest, o, at + 1);
      AscendsMore(Origins(c, rest, o, at + 1), at, at + |prom|);
      assert [] + Origins(c, rest, o, at + 1) == Origins(c, rest, o, at + 1);
    }
  }

  /** The entry at `k` is that of the Prometheus alert listed there. */
  ghost predicate OwnEntry(alerts: seq<Alert>, prom: seq<PromAlert>, o: Options, at: nat, k: nat) {
    var d, us := Built(alerts, prom, o), Origins(alerts, prom, o, at);
    && k < |us| && |alerts| + k < |d| && at <= us[k] < at + |prom|
    && NameOf(prom[us[k] - at]).Some? && Same(EntryOf(prom[us[k] - at], o), d[|alerts| + k])
  }

  /** The other entries are those of the Prometheus alerts listed, each one's own. */
  lemma {:induction false} BuiltAdds(alerts: seq<Alert>, prom: seq<PromAlert>, o: Options, at: nat)
    ensures |Built(alerts, prom, o)| == |alerts| + |Origins(alerts, prom, o, at)|
    ensures forall k :: 0 <= k < |Origins(alerts, prom, o, at)| ==> OwnEntry(alerts, prom, o, at, k)
    decreases |prom|
  {
    hide Added, OwnEntry;
    if prom != [] {
      var c, rest := Added(alerts, prom[0], o), prom[1..];
      AddedKeeps(alerts, prom[0], o);
      BuiltAdds(c, rest, o, at + 1);
      forall k | 0 <= k < |Origins(alerts, prom, o, at)| ensures OwnEntry(alerts, prom, o, at, k) {
        if |c| > |alerts| && k == 0 {
          FirstEntry(alerts, prom, o, at);
        } else {
          LaterEntry(alerts, prom, o, at, k);
        }
      }
    }
  }

  lemma FirstEntry(alerts: seq<Alert>, prom: seq<PromAlert>, o: Options, at: nat)
    requires prom != [] && |Added(alerts, prom[0], o)| > |alerts|
    ensures OwnEntry(alerts, prom, o, at, 0)
  {
    hide Added, Same, EntryOf;
    AddedKeeps(alerts, prom[0], o);
    BuiltKeeps(Added(alerts, prom[0], o), prom[1..], o);
    OriginsAscend(alerts, prom, o, at);
  }

  lemma LaterEntry(alerts: seq<Alert>, prom: seq<PromAlert>, o: Options, at: nat, k: nat)
    requires prom != []
    requires var c := Added(alerts, prom[0], o);
             |c| - |alerts| <= k && OwnEntry(c, prom[1..], o, at + 1, k - (|c| - |alerts|))
    ensures OwnEntry(alerts, prom, o, at, k)
  {
    hide Added, Same, EntryOf;
    AddedKeeps(alerts, prom[0], o);
    var c, rest := Added(alerts, prom[0], o), prom[1..];
    var n := |c| - |alerts|;
    var us, vs := Origins(alerts, prom, o, at), Origins(c, rest, o, at + 1);
    assert us == (if n == 1 then [at] else []) + vs;
    assert us[k] == vs[k - n];
    assert prom[us[k] - at] == rest[us[k] - at - 1];
  }

  /** Every named Prometheus alert has an entry that stands for it. */
  lemma {:induction false} BuiltCovers(alerts: seq<Alert>, prom: seq<PromAlert>, o: Options, j: nat)
    requires j < |prom| && NameOf(prom[j]).Some?
    ensures exists i :: 0 <= i < |Built(alerts, prom, o)| && Stands(Built(alerts, prom, o)[i], prom[j])
    decreases |prom|
  {
    hide Added, Same, Stands;
    var c, d := Added(alerts, prom[0], o), Built(alerts, prom, o);
    AddedKeeps(alerts, prom[0], o);
    if j == 0 {
      var i :| 0 <= i < |c| && Stands(c[i], prom[0]);
      BuiltKeeps(c, prom[1..], o);
      SameStands(c[i], d[i], prom[0]);
    } else {
      assert prom[1..][j - 1] == prom[j];
      BuiltCovers(c, prom[1..], o, j - 1);
    }
  }

  lemma {:induction false} RetainedAre(alerts: seq<Alert>, o: Options, a: Alert)
    ensures multiset(Retained(alerts, o))[a] == if Listed(a, o) then multiset(alerts)[a] else 0
  {
    hide Listed;
    if alerts != [] {
      var rest, last := alerts[..|alerts| - 1], alerts[|alerts| - 1];
      RetainedAre(rest, o, a);
      assert alerts == rest + [last];
    }
  }

  lemma OutputAre(alerts: seq<Alert>, o: Options, a: Alert)
    ensures multiset(Sorted(Retained(alerts, o)))[a] == if Listed(a, o) then multiset(alerts)[a] else 0
    ensures Ordered(Sorted(Retained(alerts, o)))
  {
    hide Listed;
    SortOrders(Retained(alerts, o));
    RetainedAre(alerts, o, a);
  }

  // ----- Which entry a Prometheus alert gets -----

  /** The entries once the first `n` Prometheus alerts are merged. */
  function Upto(am: seq<Alert>, prom: seq<PromAlert>, o: Options, n: nat): seq<Alert>
    requires n <= |prom|
  {
    Built(am, prom[..n], o)
  }

  /** The position of the entry that shows the Prometheus alert at `j`: the first that stands for it,
      or one of its own at the end. */
  function EntryFor(am: seq<Alert>, prom: seq<PromAlert>, o: Options, j: nat): nat
    requires j < |prom|
  {
    var alerts := Upto(am, prom, o, j);
    if !IsPending(prom[j]) && FirstFor(alerts, prom[j]).Some? then FirstFor(alerts, prom[j]).value else |alerts|
  }

  /** The first Prometheus alert has the name of the second, and all its labels. */
  predicate CoversAlert(q: PromAlert, p: PromAlert) { NameOf(q).Some? && NameOf(q) == NameOf(p) && Includes(q.labels, p.labels) }

  function FirstCover(prom: seq<PromAlert>, p: PromAlert): (r: Option<nat>)
    ensures r.Some? ==> r.value < |prom| && CoversAlert(prom[r.value], p)
  {
    if prom == [] then None
    else if CoversAlert(prom[0], p) then Some(0)
    else match FirstCover(prom[1..], p) { case Some(k) => Some(k + 1) case None => None }
  }

  lemma {:induction false} CoverIsFirst(prom: seq<PromAlert>, p: PromAlert)
    ensures match FirstCover(prom, p)
            case Some(k) => forall i :: 0 <= i < k ==> !CoversAlert(prom[i], p)
            case None => forall i :: 0 <= i < |prom| ==> !CoversAlert(prom[i], p)
  {
    hide CoversAlert;
    if prom != [] && !CoversAlert(prom[0], p) {
      CoverIsFirst(prom[1..], p);
      assert forall i :: 0 < i < |prom| ==> prom[i] == prom[1..][i - 1];
    }
  }

  lemma {:induction false} EntryIsFirst(alerts: seq<Alert>, p: PromAlert)
    requires FirstFor(alerts, p).Some?
    ensures forall i :: 0 <= i < FirstFor(alerts, p).value ==> !Stands(alerts[i], p)
  {
    hide Stands;
    if !Stands(alerts[0], p) {
      EntryIsFirst(alerts[1..], p);
      assert forall i :: 0 < i < |alerts| ==> alerts[i] == alerts[1..][i - 1];
    }
  }

  lemma {:induction false} BuiltMore(alerts: seq<Alert>, a: seq<PromAlert>, b: seq<PromAlert>, o: Options)
    ensures Built(alerts, a + b, o) == Built(Built(alerts, a, o), b, o)
    decreases |a|
  {
    hide Added;
    if a == [] {
      assert a + b == b;
    } else {
      assert (a + b)[1..] == a[1..] + b;
      BuiltMore(Added(alerts, a[0], o), a[1..], b, o);
    }
  }

  lemma UptoNext(am: seq<Alert>, prom: seq<PromAlert>, o: Options, n: nat)
    requires n < |prom|
    ensures Upto(am, prom, o, n + 1) == Added(Upto(am, prom, o, n), prom[n], o)
  {
    hide Added;
    assert prom[..n + 1] == prom[..n] + [prom[n]] && [prom[n]][1..] == [];
    BuiltMore(am, prom[..n], [prom[n]], o);
    assert Built(Upto(am, prom, o, n), [prom[n]], o) == Built(Added(Upto(am, prom, o, n), prom[n], o), [], o);
  }

  lemma UptoKeeps(am: seq<Alert>, prom: seq<PromAlert>, o: Options, m: nat, n: nat)
    requires m <= n <= |prom|
    ensures |am| <= |Upto(am, prom, o, m)| <= |Upto(am, prom, o, n)|
    ensures forall i :: 0 <= i < |Upto(am, prom, o, m)| ==> Same(Upto(am, prom, o, m)[i], Upto(am, prom, o, n)[i])
    ensures forall i :: 0 <= i < |am| ==> Same(am[i], Upto(am, prom, o, n)[i])
  {
    hide Built, Same;
    assert prom[..n] == prom[..m] + prom[m..n];
    BuiltMore(am, prom[..m], prom[m..n], o);
    BuiltKeeps(Upto(am, prom, o, m), prom[m..n], o);
    BuiltKeeps(am, prom[..m], o);
    BuiltKeeps(am, prom[..n], o);
  }

  lemma NoneMerged(am: seq<Alert>, prom: seq<PromAlert>, o: Options)
    ensures Upto(am, prom, o, 0) == am && Upto(am, prom, o, |prom|) == Built(am, prom, o)
  {
    assert prom[..|prom|] == prom;
  }

  /** Whose own an entry is that Alertmanager does not have. */
  lemma {:induction false} Creator(am: seq<Alert>, prom: seq<PromAlert>, o: Options, n: nat, i: nat) returns (u: nat)
    requires n <= |prom| && |am| <= i < |Upto(am, prom, o, n)|
    ensures u < n && |Upto(am, prom, o, u)| == i && NameOf(prom[u]).Some? && EntryFor(am, prom, o, u) == i
    ensures Same(EntryOf(prom[u], o), Upto(am, prom, o, n)[i])
  {
    hide Built, Same, EntryOf, Upto;
    NoneMerged(am, prom, o);
    UptoNext(am, prom, o, n - 1);
    AddedKeeps(Upto(am, prom, o, n - 1), prom[n - 1], o);
    if i < |Upto(am, prom, o, n - 1)| {
      u := Creator(am, prom, o, n - 1, i);
      SameTwice(EntryOf(prom[u], o), Upto(am, prom, o, n - 1)[i], Upto(am, prom, o, n)[i]);
    } else {
      u := n - 1;
      SameSelf(EntryOf(prom[u], o));
    }
  }

  lemma SameStandsExactly(a: Alert, b: Alert, p: PromAlert)
    requires Same(a, b)
    ensures Stands(a, p) <==> Stands(b, p)
  {
  }

  lemma EntryStands(q: PromAlert, a: Alert, p: PromAlert, o: Options)
    requires NameOf(q).Some? && Same(EntryOf(q, o), a)
    ensures Stands(a, p) <==> CoversAlert(q, p)
  {
  }

  lemma StandsForMore(a: Alert, q: PromAlert, p: PromAlert)
    requires Stands(a, q) && CoversAlert(q, p)
    ensures Stands(a, p)
  {
  }

  /** Once merged, an alert is shown by the entry that was chosen for it. */
  lemma EntryShows(am: seq<Alert>, prom: seq<PromAlert>, o: Options, j: nat)
    requires j < |prom| && NameOf(prom[j]).Some?
    ensures var d, i := Upto(am, prom, o, j + 1), EntryFor(am, prom, o, j); i < |d| && Stands(d[i], prom[j])
  {
    hide Built, Upto;
    UptoNext(am, prom, o, j);
  }

  /** An entry stands for an alert when one of Alertmanager does, or one was merged that covers it. */
  lemma StandsExactly(am: seq<Alert>, prom: seq<PromAlert>, o: Options, n: nat, p: PromAlert)
    requires n <= |prom|
    ensures FirstFor(Upto(am, prom, o, n), p).Some? <==> FirstFor(am, p).Some? || FirstCover(prom[..n], p).Some?
  {
    hide Built, Same, Stands, CoversAlert, EntryOf, Upto, FirstCover;
    var d := Upto(am, prom, o, n);
    UptoKeeps(am, prom, o, n, n);
    CoverIsFirst(prom[..n], p);
    if FirstFor(am, p).Some? {
      var i := FirstFor(am, p).value;
      SameStandsExactly(am[i], d[i], p);
    } else if FirstCover(prom[..n], p).Some? {
      var k := FirstCover(prom[..n], p).value;
      Named(prom[k], p);
      EntryShows(am, prom, o, k);
      var i := EntryFor(am, prom, o, k);
      UptoKeeps(am, prom, o, k + 1, n);
      StandsForMore(Upto(am, prom, o, k + 1)[i], prom[k], p);
      SameStandsExactly(Upto(am, prom, o, k + 1)[i], d[i], p);
    } else {
      forall i | 0 <= i < |d| ensures !Stands(d[i], p) {
        if i < |am| {
          SameStandsExactly(am[i], d[i], p);
        } else {
          var u := Creator(am, prom, o, n, i);
          EntryStands(prom[u], d[i], p, o);
          assert prom[..n][u] == prom[u];
        }
      }
    }
  }

  lemma Named(q: PromAlert, p: PromAlert)
    requires CoversAlert(q, p)
    ensures NameOf(q).Some?
  {
  }

  lemma {:induction false} OriginExactly(alerts: seq<Alert>, prom: seq<PromAlert>, o: Options, at: nat, j: nat)
    requires j < |prom|
    ensures at + j in Origins(alerts, prom, o, at) <==> |Upto(alerts, prom, o, j + 1)| > |Upto(alerts, prom, o, j)|
    decreases |prom|
  {
    hide Added, Upto;
    var c, rest := Added(alerts, prom[0], o), prom[1..];
    OriginsAscend(c, rest, o, at + 1);
    if j == 0 {
      NoneMerged(alerts, prom, o);
      UptoNext(alerts, prom, o, 0);
    } else {
      OriginExactly(c, rest, o, at + 1, j - 1);
      LaterUpto(alerts, prom, o, j);
      LaterUpto(alerts, prom, o, j + 1);
    }
  }

  lemma LaterUpto(alerts: seq<Alert>, prom: seq<PromAlert>, o: Options, n: nat)
    requires 0 < n <= |prom|
    ensures Upto(alerts, prom, o, n) == Upto(Added(alerts, prom[0], o), prom[1..], o, n - 1)
  {
    hide Added;
    assert prom[..n][1..] == prom[1..][..n - 1];
  }

  /** A Prometheus alert gets an entry of its own exactly when it has a name and is pending, or no
      Alertmanager alert stands for it and none before it covers it. */
  lemma OwnEntriesExactly(am: seq<Alert>, prom: seq<PromAlert>, o: Options, j: nat)
    requires j < |prom|
    ensures j in Origins(am, prom, o, 0) <==>
              && NameOf(prom[j]).Some?
              && (IsPending(prom[j]) || (FirstFor(am, prom[j]).None? && FirstCover(prom[..j], prom[j]).None?))
  {
    hide Built, EntryOf, Upto, FirstCover;
    OriginExactly(am, prom, o, 0, j);
    UptoNext(am, prom, o, j);
    StandsExactly(am, prom, o, j, prom[j]);
  }

  /** A firing alert is shown as pending exactly when: the first Alertmanager alert that stands for it
      is pending, or none does and the first Prometheus alert before it that covers it is pending. */
  lemma LooksPendingExactly(am: seq<Alert>, prom: seq<PromAlert>, o: Options, j: nat)
    requires j < |prom| && NameOf(prom[j]).Some? && !IsPending(prom[j])
    ensures var d, i := Built(am, prom, o), EntryFor(am, prom, o, j);
            && i < |d| && Stands(d[i], prom[j])
            && (d[i].state.Pending? <==>
                  match FirstFor(am, prom[j])
                  case Some(a) => am[a].state.Pending?
                  case None => FirstCover(prom[..j], prom[j]).Some? && IsPending(prom[FirstCover(prom[..j], prom[j]).value]))
  {
    hide Built, Stands, EntryOf, Upto, FirstCover, Same;
    var p, i := prom[j], EntryFor(am, prom, o, j);
    var before, d := Upto(am, prom, o, j), Built(am, prom, o);
    NoneMerged(am, prom, o);
    EntryShows(am, prom, o, j);
    UptoKeeps(am, prom, o, j + 1, |prom|);
    SameStandsExactly(Upto(am, prom, o, j + 1)[i], d[i], p);
    StandsExactly(am, prom, o, j, p);
    if FirstFor(am, p).Some? {
      ShownByAlertmanager(am, prom, o, j);
    } else if FirstCover(prom[..j], p).Some? {
      ShownByEarlier(am, prom, o, j);
    } else {
      OwnState(am, prom, o, j);
    }
  }

  lemma SameState(a: Alert, b: Alert)
    requires Same(a, b)
    ensures a.state == b.state
  {
  }

  lemma ShownByAlertmanager(am: seq<Alert>, prom: seq<PromAlert>, o: Options, j: nat)
    requires j < |prom| && !IsPending(prom[j]) && FirstFor(am, prom[j]).Some?
    ensures EntryFor(am, prom, o, j) == FirstFor(am, prom[j]).value < |Built(am, prom, o)|
    ensures Built(am, prom, o)[EntryFor(am, prom, o, j)].state == am[FirstFor(am, prom[j]).value].state
  {
    hide Built, Stands, Upto, Same;
    var p, before := prom[j], Upto(am, prom, o, j);
    var a := FirstFor(am, p).value;
    UptoKeeps(am, prom, o, j, j);
    UptoKeeps(am, prom, o, j, |prom|);
    NoneMerged(am, prom, o);
    EntryIsFirst(am, p);
    SameStandsExactly(am[a], before[a], p);
    EntryIsFirst(before, p);
    var i := FirstFor(before, p).value;
    if i < a {
      SameStandsExactly(am[i], before[i], p);
    }
    SameState(am[a], Built(am, prom, o)[a]);
  }

  lemma ShownByEarlier(am: seq<Alert>, prom: seq<PromAlert>, o: Options, j: nat)
    requires j < |prom| && !IsPending(prom[j]) && FirstFor(am, prom[j]).None? && FirstCover(prom[..j], prom[j]).Some?
    ensures var d, i := Built(am, prom, o), EntryFor(am, prom, o, j);
            i < |d| && (d[i].state.Pending? <==> IsPending(prom[FirstCover(prom[..j], prom[j]).value]))
  {
    hide Built, Stands, Upto, Same, CoversAlert, FirstCover;
    var p, before, d := prom[j], Upto(am, prom, o, j), Built(am, prom, o);
    var k := FirstCover(prom[..j], p).value;
    StandsExactly(am, prom, o, j, p);
    UptoKeeps(am, prom, o, j, j);
    UptoKeeps(am, prom, o, j, |prom|);
    NoneMerged(am, prom, o);
    CoverIsFirst(prom[..j], p);
    EntryIsFirst(before, p);
    var i := FirstFor(before, p).value;
    if i < |am| {
      SameStandsExactly(am[i], before[i], p);
    }
    var u := Creator(am, prom, o, j, i);
    EntryStands(prom[u], before[i], p, o);
    assert prom[..j][u] == prom[u];
    if k < u {
      EarlierEntry(am, prom, o, j, k, u);
    }
    SameTwice(EntryOf(prom[u], o), before[i], d[i]);
    SameState(EntryOf(prom[u], o), d[i]);
  }

  /** A covering alert merged before another has an entry before it. */
  lemma EarlierEntry(am: seq<Alert>, prom: seq<PromAlert>, o: Options, j: nat, k: nat, u: nat)
    requires k < u < j < |prom| && CoversAlert(prom[k], prom[j])
    ensures FirstFor(Upto(am, prom, o, j), prom[j]).Some?
    ensures FirstFor(Upto(am, prom, o, j), prom[j]).value < |Upto(am, prom, o, u)|
  {
    hide Built, Stands, Upto, Same, CoversAlert;
    Named(prom[k], prom[j]);
    EntryShows(am, prom, o, k);
    var i := EntryFor(am, prom, o, k);
    UptoKeeps(am, prom, o, k + 1, u);
    UptoKeeps(am, prom, o, k + 1, j);
    StandsForMore(Upto(am, prom, o, k + 1)[i], prom[k], prom[j]);
    SameStandsExactly(Upto(am, prom, o, k + 1)[i], Upto(am, prom, o, j)[i], prom[j]);
    EntryIsFirst(Upto(am, prom, o, j), prom[j]);
  }

  lemma OwnState(am: seq<Alert>, prom: seq<PromAlert>, o: Options, j: nat)
    requires j < |prom| && NameOf(prom[j]).Some? && FirstFor(Upto(am, prom, o, j), prom[j]).None?
    ensures var d, i := Built(am, prom, o), EntryFor(am, prom, o, j);
            i < |d| && (d[i].state.Pending? <==> IsPending(prom[j]))
  {
    hide Built, Upto, Same;
    var i := EntryFor(am, prom, o, j);
    UptoNext(am, prom, o, j);
    UptoKeeps(am, prom, o, j + 1, |prom|);
    NoneMerged(am, prom, o);
    SameState(Upto(am, prom, o, j + 1)[i], Built(am, prom, o)[i]);
  }

  // ----- What an entry shows -----

  /** The Prometheus alert at `j` is shown by the entry at `i`. */
  predicate Chose(am: seq<Alert>, prom: seq<PromAlert>, o: Options, j: nat, i: nat)
    requires j < |prom|
  {
    NameOf(prom[j]).Some? && EntryFor(am, prom, o, j) == i
  }

  /** After `n` alerts the entry at `i` shows the value of the last one it was chosen for, or its own. */
  ghost predicate ShowsLast(am: seq<Alert>, prom: seq<PromAlert>, o: Options, n: nat, i: nat, value: Option<string>)
    requires n <= |prom|
  {
    && (forall j :: 0 <= j < n && Chose(am, prom, o, j, i) && (forall k :: j < k < n ==> !Chose(am, prom, o, k, i))
          ==> value == prom[j].value)
    && ((forall j :: 0 <= j < n ==> !Chose(am, prom, o, j, i)) ==> i < |am| && value == am[i].value)
  }

  /** And its own activity time, or the first one known of those alerts. */
  ghost predicate ShowsFirst(am: seq<Alert>, prom: seq<PromAlert>, o: Options, n: nat, i: nat, time: Option<int>)
    requires n <= |prom|
  {
    if i < |am| && am[i].activeAt.Some? then time == am[i].activeAt
    else
      && (forall j :: 0 <= j < n && Chose(am, prom, o, j, i) && prom[j].activeAt.Some?
                      && (forall k :: 0 <= k < j && Chose(am, prom, o, k, i) ==> prom[k].activeAt.None?)
            ==> time == prom[j].activeAt)
      && ((forall j :: 0 <= j < n && Chose(am, prom, o, j, i) ==> prom[j].activeAt.None?) ==> time.None?)
  }

  lemma ChosenLast(am: seq<Alert>, prom: seq<PromAlert>, o: Options, n: nat, i: nat)
    requires n < |prom| && Chose(am, prom, o, n, i)
    ensures ShowsLast(am, prom, o, n + 1, i, prom[n].value)
  {
    hide EntryFor;
  }

  lemma LastStays(am: seq<Alert>, prom: seq<PromAlert>, o: Options, n: nat, i: nat, value: Option<string>)
    requires n < |prom| && !Chose(am, prom, o, n, i) && ShowsLast(am, prom, o, n, i, value)
    ensures ShowsLast(am, prom, o, n + 1, i, value)
  {
    hide Chose;
  }

  lemma ChosenFirst(am: seq<Alert>, prom: seq<PromAlert>, o: Options, n: nat, i: nat, time: Option<int>)
    requires n < |prom| && Chose(am, prom, o, n, i) && ShowsFirst(am, prom, o, n, i, time)
    ensures ShowsFirst(am, prom, o, n + 1, i, if time.Some? then time else prom[n].activeAt)
  {
    hide Chose;
    if time.None? && !(i < |am| && am[i].activeAt.Some?) {
      forall j | 0 <= j < n && Chose(am, prom, o, j, i) ensures prom[j].activeAt.None? {
        NoneKnown(am, prom, o, n, i, j);
      }
    }
  }

  /** While no time is known, none of the alerts has one. */
  lemma {:induction false} NoneKnown(am: seq<Alert>, prom: seq<PromAlert>, o: Options, n: nat, i: nat, j: nat)
    requires j < n < |prom| && Chose(am, prom, o, j, i) && !(i < |am| && am[i].activeAt.Some?)
    requires ShowsFirst(am, prom, o, n, i, None)
    ensures prom[j].activeAt.None?
    decreases j
  {
    hide Chose;
    forall k | 0 <= k < j && Chose(am, prom, o, k, i) ensures prom[k].activeAt.None? {
      NoneKnown(am, prom, o, n, i, k);
    }
  }

  lemma FirstStays(am: seq<Alert>, prom: seq<PromAlert>, o: Options, n: nat, i: nat, time: Option<int>)
    requires n < |prom| && !Chose(am, prom, o, n, i) && ShowsFirst(am, prom, o, n, i, time)
    ensures ShowsFirst(am, prom, o, n + 1, i, time)
  {
    hide Chose;
  }

  /** An entry is chosen only once it is there. */
  lemma ChosenIsThere(am: seq<Alert>, prom: seq<PromAlert>, o: Options, n: nat, j: nat)
    requires j < n <= |prom| && NameOf(prom[j]).Some?
    ensures EntryFor(am, prom, o, j) < |Upto(am, prom, o, n)|
  {
    hide Built, Upto, Stands;
    EntryShows(am, prom, o, j);
    UptoKeeps(am, prom, o, j + 1, n);
  }

  lemma {:induction false} ShowsUpto(am: seq<Alert>, prom: seq<PromAlert>, o: Options, n: nat, i: nat)
    requires n <= |prom| && i < |Upto(am, prom, o, n)|
    ensures ShowsLast(am, prom, o, n, i, Upto(am, prom, o, n)[i].value)
    ensures ShowsFirst(am, prom, o, n, i, Upto(am, prom, o, n)[i].activeAt)
  {
    hide Upto, ShowsLast, ShowsFirst, FirstFor, EntryOf;
    if n == 0 {
      NoneMerged(am, prom, o);
      StartShows(am, prom, o, i);
    } else {
      var before, p := Upto(am, prom, o, n - 1), prom[n - 1];
      UptoNext(am, prom, o, n - 1);
      if i < |before| {
        ShowsUpto(am, prom, o, n - 1, i);
        if Chose(am, prom, o, n - 1, i) {
          ChosenLast(am, prom, o, n - 1, i);
          ChosenFirst(am, prom, o, n - 1, i, before[i].activeAt);
        } else {
          LastStays(am, prom, o, n - 1, i, before[i].value);
          FirstStays(am, prom, o, n - 1, i, before[i].activeAt);
        }
      } else {
        NewShows(am, prom, o, n - 1, i);
      }
    }
  }

  lemma StartShows(am: seq<Alert>, prom: seq<PromAlert>, o: Options, i: nat)
    requires i < |am|
    ensures Upto(am, prom, o, 0) == am
    ensures ShowsLast(am, prom, o, 0, i, am[i].value) && ShowsFirst(am, prom, o, 0, i, am[i].activeAt)
  {
    NoneMerged(am, prom, o);
  }

  lemma NewShows(am: seq<Alert>, prom: seq<PromAlert>, o: Options, n: nat, i: nat)
    requires n < |prom| && |Upto(am, prom, o, n)| <= i < |Upto(am, prom, o, n + 1)|
    ensures var a := Upto(am, prom, o, n + 1)[i];
            ShowsLast(am, prom, o, n + 1, i, a.value) && ShowsFirst(am, prom, o, n + 1, i, a.activeAt)
  {
    hide Upto, FirstFor, ShowsLast;
    UptoNext(am, prom, o, n);
    UptoKeeps(am, prom, o, n, n);
    assert Chose(am, prom, o, n, i);
    forall j | 0 <= j < n ensures !Chose(am, prom, o, j, i) {
      if NameOf(prom[j]).Some? { ChosenIsThere(am, prom, o, n, j); }
    }
    ChosenLast(am, prom, o, n, i);
    ChosenFirst(am, prom, o, n, i, None);
  }

  /** Every entry of the merge shows the value of the last Prometheus alert it was chosen for, and its
      own value only if there is none; its activity time is Alertmanager's, or the first one known of
      those alerts. */
  lemma EntriesShowTheirAlerts(am: seq<Alert>, prom: seq<PromAlert>, o: Options, i: nat)
    requires i < |Built(am, prom, o)|
    ensures ShowsLast(am, prom, o, |prom|, i, Built(am, prom, o)[i].value)
    ensures ShowsFirst(am, prom, o, |prom|, i, Built(am, prom, o)[i].activeAt)
  {
    hide Built, Upto, ShowsLast, ShowsFirst;
    NoneMerged(am, prom, o);
    ShowsUpto(am, prom, o, |prom|, i);
  }

  /** The merge loses nothing and makes nothing up. Its output is ordered, and is, up to order, the
      listed ones among: every Alertmanager alert, once, only refreshed; and one entry each for some
      Prometheus alerts, in their order: the named ones that are pending, or that no Alertmanager alert
      stands for and no earlier one covers. Every other one is covered by an entry with its name whose
      labels include its labels. Each entry shows the last value and the first time of its alerts. */
  lemma MergeConserves(am: seq<Alert>, prom: seq<PromAlert>, o: Options)
    ensures var d, us := Built(am, prom, o), Origins(am, prom, o, 0);
            var out := Sorted(Retained(d, o));
            && Ordered(out)
            && (forall a :: multiset(out)[a] == if Listed(a, o) then multiset(d)[a] else 0)
            && |d| == |am| + |us|
            && (forall i :: 0 <= i < |am| ==> Same(am[i], d[i]))
            && (forall k :: 0 <= k < |us| ==> us[k] < |prom| && NameOf(prom[us[k]]).Some? && Same(EntryOf(prom[us[k]], o), d[|am| + k]))
            && (forall k, l :: 0 <= k < l < |us| ==> us[k] < us[l])
            && (forall j :: 0 <= j < |prom| ==> (j in us <==>
                  && NameOf(prom[j]).Some?
                  && (IsPending(prom[j]) || (FirstFor(am, prom[j]).None? && FirstCover(prom[..j], prom[j]).None?))))
            && (forall j :: 0 <= j < |prom| && NameOf(prom[j]).Some? ==> exists a :: a in d && Stands(a, prom[j]))
            && (forall i :: 0 <= i < |d| ==>
                  ShowsLast(am, prom, o, |prom|, i, d[i].value) && ShowsFirst(am, prom, o, |prom|, i, d[i].activeAt))
  {
    hide Sorted, Retained, Built, Same, Stands, Listed, EntryOf, Origins, FirstFor, FirstCover, ShowsLast, ShowsFirst;
    var d, us := Built(am, prom, o), Origins(am, prom, o, 0);
    BuiltKeeps(am, prom, o);
    BuiltAdds(am, prom, o, 0);
    OriginsAscend(am, prom, o, 0);
    forall j | 0 <= j < |prom| ensures j in us <==>
      NameOf(prom[j]).Some? && (IsPending(prom[j]) || (FirstFor(am, prom[j]).None? && FirstCover(prom[..j], prom[j]).None?))
    {
      OwnEntriesExactly(am, prom, o, j);
    }
    forall i | 0 <= i < |d| ensures ShowsLast(am, prom, o, |prom|, i, d[i].value) && ShowsFirst(am, prom, o, |prom|, i, d[i].activeAt) {
      EntriesShowTheirAlerts(am, prom, o, i);
    }
    forall k | 0 <= k < |us| ensures us[k] < |prom| && NameOf(prom[us[k]]).Some? && Same(EntryOf(prom[us[k]], o), d[|am| + k]) {
      assert OwnEntry(am, prom, o, 0, k);
      assert prom[us[k] - 0] == prom[us[k]];
    }
    forall j | 0 <= j < |prom| && NameOf(prom[j]).Some? ensures exists a :: a in d && Stands(a, prom[j]) {
      BuiltCovers(am, prom, o, j);
      var i :| 0 <= i < |d| && Stands(d[i], prom[j]);
      assert d[i] in d;
    }
    forall a ensures multiset(Sorted(Retained(d, o)))[a] == (if Listed(a, o) then multiset(d)[a] else 0) && Ordered(Sorted(Retained(d, o))) {
      OutputAre(d, o, a);
    }
    var some: Alert :| true;
    OutputAre(d, o, some);
  }

  /** A firing alert can be shown by the entry of an earlier pending one with more labels. */
  lemma FiringCanLookPending(o: Options)
    ensures var labels: Labels := map["alertname" := "Down", "pod" := "a"];
            var prom := [PromAlert(labels, "", "pending", None, None), PromAlert(map["alertname" := "Down"], "", "firing", Some(5), Some("1"))];
            && |Built([], prom, o)| == 1 && Built([], prom, o)[0].state.Pending? && Built([], prom, o)[0].value == Some("1")
  {
    var labels: Labels := map["alertname" := "Down", "pod" := "a"];
    var p, q := PromAlert(labels, "", "pending", None, None), PromAlert(map["alertname" := "Down"], "", "firing", Some(5), Some("1"));
    var one := Added([], p, o);
    assert one == [EntryOf(p, o)];
    assert Stands(one[0], q);
    assert Added(one, q, o) == [Refreshed(one[0], q)];
    assert [p, q][1..] == [q] && [q][1..] == [];
    assert Built(one, [q], o) == Built(Added(one, q, o), [], o);
  }
}
