/** What the merge of alerts shows, in plain words. */
module MergeWords {
  import opened Wrappers
  import opened AlertMerge

  // ----- Entries -----

  /** The entry has the alert's name and all its labels. */
  ghost predicate Shows(a: Alert, p: PromAlert) {
    "alertname" in p.labels && a.name == p.labels["alertname"] && forall k :: k in p.labels ==> k in a.labels && a.labels[k] == p.labels[k]
  }

  /** The first alert has the name of the second and all its labels. */
  ghost predicate Subsumes(q: PromAlert, p: PromAlert) {
    && "alertname" in q.labels && "alertname" in p.labels && q.labels["alertname"] == p.labels["alertname"]
    && forall k :: k in p.labels ==> k in q.labels && q.labels[k] == p.labels[k]
  }

  lemma ShowsExactly(a: Alert, p: PromAlert)
    ensures Stands(a, p) <==> Shows(a, p)
  {
  }

  lemma CoversExactly(q: PromAlert, p: PromAlert)
    ensures CoversAlert(q, p) <==> Subsumes(q, p)
  {
  }

  /** How long the first rule of this name waits before it fires; no time, when there is none or it is
      negative. */
  ghost predicate WaitsFor(rules: seq<Rule>, name: string, wait: int) {
    if forall k :: 0 <= k < |rules| ==> rules[k].name != name then wait == 0
    else exists k :: FirstRule(rules, name, k) && wait == if rules[k].wait < 0 then 0 else rules[k].wait
  }

  ghost predicate FirstRule(rules: seq<Rule>, name: string, k: int) {
    0 <= k < |rules| && rules[k].name == name && forall j :: 0 <= j < k ==> rules[j].name != name
  }

  lemma {:induction false} WaitExactly(rules: seq<Rule>, name: string)
    ensures WaitsFor(rules, name, WaitOf(rules, name))
  {
    if rules != [] && rules[0].name != name {
      var rest := rules[1..];
      WaitExactly(rest, name);
      assert forall k :: 0 < k < |rules| ==> rules[k] == rest[k - 1];
      assert forall k :: 0 <= k < |rest| ==> rest[k] == rules[k + 1];
      if !(forall k :: 0 <= k < |rest| ==> rest[k].name != name) {
        var k :| FirstRule(rest, name, k) && WaitOf(rest, name) == if rest[k].wait < 0 then 0 else rest[k].wait;
        assert FirstRule(rules, name, k + 1);
      }
    } else if rules != [] {
      assert FirstRule(rules, name, 0);
    }
  }

  /** The entry of an alert that only Prometheus has: pending or firing as it says; a firing one started
      when its rule's wait was over, which is computed from when it became active. */
  ghost predicate IsEntryOf(e: Alert, p: PromAlert, o: Options) {
    && "alertname" in p.labels && e.name == p.labels["alertname"] && e.labels == p.labels && e.details == p.details
    && e.fingerprint == o.fingerprintOf(p.labels) && e.severity == o.severityOf(p.labels)
    && e.state == (if p.state == "pending" then Pending else Firing)
    && e.activeAt == p.activeAt && e.updatedAt == None && e.value == p.value && e.source == "Prometheus"
    && (p.state != "pending" && p.activeAt.Some? ==>
          e.startsApprox && (exists wait :: WaitsFor(o.rules, e.name, wait) && e.startsAt == Some(p.activeAt.value + wait)))
    && (p.state == "pending" || p.activeAt.None? ==> !e.startsApprox && e.startsAt == None)
  }

  lemma EntryExactly(p: PromAlert, o: Options)
    requires NameOf(p).Some?
    ensures IsEntryOf(EntryOf(p, o), p, o)
  {
    hide WaitOf, WaitsFor;
    WaitExactly(o.rules, NameOf(p).value);
  }

  // ----- The order -----

  /** Critical, warning, info, any other, none. */
  predicate Worse(s: Severity, t: Severity) {
    match s
    case Critical => !t.Critical?
    case Warning => t.Info? || t.OtherSeverity? || t.NoSeverity?
    case Info => t.OtherSeverity? || t.NoSeverity?
    case OtherSeverity(_) => t.NoSeverity?
    case NoSeverity => false
  }

  /** When the alert began, as far as it is known: a pending one when it became active. */
  ghost predicate Began(a: Alert, since: Option<int>) {
    if a.state == Pending then since == a.activeAt
    else if a.startsAt.Some? then since == a.startsAt else since == a.activeAt
  }

  /** The first text is the second, its beginning, or has the smaller character where they first differ. */
  ghost predicate Alphabetical(a: string, b: string) {
    exists k :: 0 <= k <= |a| && k <= |b| && a[..k] == b[..k] && (k == |a| || (k < |b| && a[k] < b[k]))
  }

  lemma {:induction false} TextExactly(a: string, b: string)
    ensures TextLe(a, b) <==> Alphabetical(a, b)
    decreases |a|
  {
    if a == "" {
      assert a[..0] == b[..0];
    } else if b != "" {
      if a[0] == b[0] {
        TextExactly(a[1..], b[1..]);
        if Alphabetical(a[1..], b[1..]) {
          var k :| 0 <= k <= |a[1..]| && k <= |b[1..]| && a[1..][..k] == b[1..][..k] && (k == |a[1..]| || (k < |b[1..]| && a[1..][k] < b[1..][k]));
          assert a[..k + 1] == [a[0]] + a[1..][..k] && b[..k + 1] == [b[0]] + b[1..][..k];
        }
        if Alphabetical(a, b) {
          var k :| 0 <= k <= |a| && k <= |b| && a[..k] == b[..k] && (k == |a| || (k < |b| && a[k] < b[k]));
          assert k > 0;
          assert a[1..][..k - 1] == a[..k][1..] && b[1..][..k - 1] == b[..k][1..];
        }
      } else {
        assert a[..0] == b[..0];
        if Alphabetical(a, b) {
          var k :| 0 <= k <= |a| && k <= |b| && a[..k] == b[..k] && (k == |a| || (k < |b| && a[k] < b[k]));
          assert forall i :: 0 <= i < k ==> a[i] == a[..k][i] && b[i] == b[..k][i];
        }
      }
    }
  }

  /** No time is before any. */
  predicate SoonerThan(s: Option<int>, t: Option<int>) { t.Some? && (s.None? || s.value < t.value) }

  ghost predicate NamesPrecede(a: Alert, b: Alert) {
    if a.name != b.name then Alphabetical(a.name, b.name) else Alphabetical(a.fingerprint, b.fingerprint)
  }

  /** `a` may stand before `b`: the worse first; then the one that began first, an unknown time before all;
      then by name, and by fingerprint. */
  ghost predicate MayPrecede(a: Alert, b: Alert) {
    || Worse(a.severity, b.severity)
    || (!Worse(b.severity, a.severity)
        && (exists s, t :: Began(a, s) && Began(b, t) && (SoonerThan(s, t) || (s == t && NamesPrecede(a, b)))))
  }

  lemma OrderExactly(a: Alert, b: Alert)
    ensures Le(a, b) <==> MayPrecede(a, b)
  {
    hide TextLe, Alphabetical;
    TextExactly(a.name, b.name);
    TextExactly(a.fingerprint, b.fingerprint);
    assert Began(a, Since(a)) && Began(b, Since(b));
  }

  // ----- The merge -----

  /** The alert is the entry of this one of Prometheus, but for value and time. */
  ghost predicate EntersAs(a: Alert, p: PromAlert, o: Options) {
    exists e :: IsEntryOf(e, p, o) && a == e.(value := a.value, activeAt := a.activeAt)
  }

  /** The output stands in order, worst and oldest first, and holds, each once, the entries whose name is
      neither a heartbeat's nor hidden, among: Alertmanager's, which stay in place and change in value and
      time only; and one each, in order, for exactly those named Prometheus alerts that are pending, or
      that no Alertmanager alert shows and no earlier Prometheus alert includes. Every named one is shown by
      an entry with its name and all its labels. */
  lemma MergeExactly(am: seq<Alert>, prom: seq<PromAlert>, o: Options)
    ensures var d, us := Built(am, prom, o), Origins(am, prom, o, 0);
            var out := Sorted(Retained(d, o));
            && (forall i, j :: 0 <= i < j < |out| ==> MayPrecede(out[i], out[j]))
            && (forall a :: multiset(out)[a] == if a.name in o.heartbeat || a.name in o.hidden then 0 else multiset(d)[a])
            && |d| == |am| + |us|
            && (forall i :: 0 <= i < |am| ==> d[i] == am[i].(value := d[i].value, activeAt := d[i].activeAt))
            && (forall k :: 0 <= k < |us| ==>
                  us[k] < |prom| && EntersAs(d[|am| + k], prom[us[k]], o))
            && (forall k, l :: 0 <= k < l < |us| ==> us[k] < us[l])
            && (forall j :: 0 <= j < |prom| ==> (j in us <==>
                  && "alertname" in prom[j].labels
                  && (prom[j].state == "pending"
                      || ((forall i :: 0 <= i < |am| ==> !Shows(am[i], prom[j])) && (forall k :: 0 <= k < j ==> !Subsumes(prom[k], prom[j]))))))
            && (forall j :: 0 <= j < |prom| && "alertname" in prom[j].labels ==> exists a :: a in d && Shows(a, prom[j]))
  {
    hide Sorted, Retained, Built, Stands, EntryOf, Origins, FirstFor, FirstCover, ShowsLast, ShowsFirst, Le, MayPrecede, Shows, Subsumes, CoversAlert, EntersAs;
    MergeConserves(am, prom, o);
    EntriesExactly(am, prom, o);
    forall a, b ensures Le(a, b) <==> MayPrecede(a, b) {
      OrderExactly(a, b);
    }
    forall a, p ensures Stands(a, p) <==> Shows(a, p) {
      ShowsExactly(a, p);
    }
    forall j | 0 <= j < |prom|
      ensures FirstFor(am, prom[j]).None? <==> forall i :: 0 <= i < |am| ==> !Shows(am[i], prom[j])
      ensures FirstCover(prom[..j], prom[j]).None? <==> forall k :: 0 <= k < j ==> !Subsumes(prom[k], prom[j])
    {
      NoneShows(am, prom, j);
    }
  }

  /** What stands after Alertmanager's alerts are the entries of Prometheus's own. */
  lemma EntriesExactly(am: seq<Alert>, prom: seq<PromAlert>, o: Options)
    ensures var d, us := Built(am, prom, o), Origins(am, prom, o, 0);
            && |d| == |am| + |us|
            && forall k :: 0 <= k < |us| ==>
                 us[k] < |prom| && EntersAs(d[|am| + k], prom[us[k]], o)
  {
    hide Sorted, Retained, Built, Stands, EntryOf, Origins, FirstFor, FirstCover, ShowsLast, ShowsFirst, Ordered, Listed, Same, IsEntryOf, IsPending, EntersAs;
    var d, us := Built(am, prom, o), Origins(am, prom, o, 0);
    MergeConserves(am, prom, o);
    forall k | 0 <= k < |us| ensures us[k] < |prom| && EntersAs(d[|am| + k], prom[us[k]], o) {
      SameEnters(d[|am| + k], prom[us[k]], o);
    }
  }

  lemma SameEnters(a: Alert, p: PromAlert, o: Options)
    requires NameOf(p).Some? && Same(EntryOf(p, o), a)
    ensures EntersAs(a, p, o)
  {
    hide EntryOf, IsEntryOf;
    EntryExactly(p, o);
    assert a == EntryOf(p, o).(value := a.value, activeAt := a.activeAt);
  }

  lemma NoneShows(am: seq<Alert>, prom: seq<PromAlert>, j: nat)
    requires j < |prom|
    ensures FirstFor(am, prom[j]).None? <==> forall i :: 0 <= i < |am| ==> !Shows(am[i], prom[j])
    ensures FirstCover(prom[..j], prom[j]).None? <==> forall k :: 0 <= k < j ==> !Subsumes(prom[k], prom[j])
  {
    hide Stands, Shows, CoversAlert, Subsumes, FirstCover;
    var p := prom[j];
    forall a ensures Stands(a, p) <==> Shows(a, p) {
      ShowsExactly(a, p);
    }
    forall q ensures CoversAlert(q, p) <==> Subsumes(q, p) {
      CoversExactly(q, p);
    }
    CoverIsFirst(prom[..j], p);
    assert forall k :: 0 <= k < j ==> prom[..j][k] == prom[k];
  }
}
