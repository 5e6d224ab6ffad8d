/** Tool contexts and the pruner live exactly as long as threads need them. */
module AgentContexts {
  import opened AgentTypes
  import opened AgentSteps
  import opened AgentMoves
  import opened AgentRuns
  import opened AgentEffects
  import opened AgentSafety
  import opened Wrappers

  /** The clusters with a tool context are those of open threads, and the pruner runs while there
      is one. */
  ghost predicate InUse(c: Core) {
    && (forall i :: 0 <= i < |c.threads| ==> c.threads[i].cluster in c.contexts)
    && (forall k :: k in c.contexts ==> Has(c.threads, k))
    && c.pruner == (c.threads != [])
  }

  ghost predicate Has(ts: seq<Thread>, cluster: string) {
    exists i :: 0 <= i < |ts| && ts[i].cluster == cluster
  }

  /** The cluster is the cluster of some thread exactly when the search finds one. */
  lemma HasFirst(ts: seq<Thread>, cluster: string)
    ensures Has(ts, cluster) <==> First(ts, OnCluster(cluster)).Some?
  {
    FirstIsFirst(ts, OnCluster(cluster));
    if Has(ts, cluster) {
      var i :| 0 <= i < |ts| && ts[i].cluster == cluster;
      assert Fits(ts[i], OnCluster(cluster));
    }
  }

  lemma SameClusters(ts: seq<Thread>, us: seq<Thread>)
    requires |ts| == |us|
    requires forall i :: 0 <= i < |ts| ==> us[i].cluster == ts[i].cluster
    ensures forall k :: Has(ts, k) ==> Has(us, k)
  {
    forall k | Has(ts, k) ensures Has(us, k) {
      var i :| 0 <= i < |ts| && ts[i].cluster == k;
      assert us[i].cluster == k;
    }
  }

  lemma RemoveKept(c: Core, i: nat)
    requires InUse(c) && Allowed(c, Remove(i))
    ensures InUse(RemoveAt(c, i))
  {
    var t, rest, d := c.threads[i], Removed(c.threads, i), RemoveAt(c, i);
    assert d.threads == rest;
    HasFirst(rest, t.cluster);
    forall j | 0 <= j < |rest| ensures rest[j].cluster in d.contexts {
      assert rest[j] == c.threads[if j < i then j else j + 1];
      assert rest[j].cluster == t.cluster ==> Has(rest, t.cluster);
    }
    forall k | k in d.contexts ensures Has(rest, k) {
      assert Has(c.threads, k);
      var j :| 0 <= j < |c.threads| && c.threads[j].cluster == k;
      if j != i {
        assert rest[if j < i then j else j - 1].cluster == k;
      }
    }
  }

  lemma AddKept(c: Core, m: Move)
    requires InUse(c) && m.Add? && Allowed(c, m)
    ensures InUse(Do(c, m))
  {
    hide NewThread;
    var d := Do(c, m);
    assert d.threads == c.threads + [m.thread];
    forall k | k in d.contexts ensures Has(d.threads, k) {
      if k in c.contexts {
        var j :| 0 <= j < |c.threads| && c.threads[j].cluster == k;
        assert d.threads[j].cluster == k;
      } else {
        assert d.threads[|c.threads|].cluster == k;
      }
    }
  }

  lemma MoveKept(c: Core, m: Move)
    requires InUse(c) && Allowed(c, m)
    ensures InUse(Do(c, m))
  {
    hide Do, After, Facts, Swept, SweepThreads, Has;
    if Local(m) {
      LocalDoes(c, m);
      SameThread(c, m);
      SameClusters(c.threads, Do(c, m).threads);
    } else if SweepOf(m).Some? {
      SweepDoes(c, m);
      SweepAt(c.threads, SweepOf(m).value);
      forall i | 0 <= i < |c.threads| ensures Do(c, m).threads[i].cluster == c.threads[i].cluster {
        SameSwept(c.threads[i], SweepOf(m).value);
      }
      SameClusters(c.threads, Do(c, m).threads);
    } else if m.Remove? {
      RemoveKept(c, m.i);
      assert Do(c, m) == RemoveAt(c, m.i) by { RemoveIs(c, m.i); }
    } else if m.Add? {
      AddKept(c, m);
    } else {
      RestDoes(c, m);
    }
  }

  lemma RemoveIs(c: Core, i: nat)
    requires Allowed(c, Remove(i))
    ensures Do(c, Remove(i)) == RemoveAt(c, i)
  {
  }

  /** After any run: the clusters with a tool context are exactly the clusters of open threads, and
      the pruner runs exactly while some thread is open. */
  lemma ContextsAreThoseOfThreads(configured: set<string>, allowWrites: bool, events: seq<Event>)
    ensures var c := Run(Fresh(configured, allowWrites), events);
            && (forall k :: k in c.contexts <==> exists i :: 0 <= i < |c.threads| && c.threads[i].cluster == k)
            && (c.pruner <==> c.threads != [])
  {
    hide Run, Do, Step;
    var start := Fresh(configured, allowWrites);
    AnyRun(start, events);
    forall c, m | Ids(c) && InUse(c) && Good(c, m, NoCare) ensures InUse(Do(c, m)) {
      MoveKept(c, m);
    }
    RunKeeps(InUse, start, events, NoCare);
  }
}
