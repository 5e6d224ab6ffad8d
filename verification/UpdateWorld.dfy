/** The fake cluster-version operator of fake_ocp.py: what the cluster shows of the world, what a
    restart makes of it, and how an update gets to its end. All versions are of major version 4. */
module UpdateWorld {
  import opened Wrappers

  datatype Version = Version(minor: nat, z: nat)

  const BASE_VERSION: Version := Version(17, 8)
  const TARGET_VERSION: Version := Version(17, 12)

  /** The releases the fake update service knows. */
  const KNOWN: seq<Version> :=
    [Version(15, 30), Version(16, 10), Version(16, 24), Version(17, 6), Version(17, 8), Version(17, 9), Version(17, 10),
     Version(17, 11), Version(17, 12), Version(17, 13), Version(17, 14), Version(18, 2), Version(18, 3), Version(18, 4)]

  /** The minor version whose updates wait for the admin's acknowledgement. */
  const GATED_MINOR: nat := 17

  datatype Stage = Started | Operators | Nodes

  const UPDATE_STAGES: seq<Stage> := [Started, Operators, Nodes]

  function Index(s: Stage): nat {
    match s case Started => 0 case Operators => 1 case Nodes => 2
  }

  function Percent(s: Stage): nat {
    match s case Started => 12 case Operators => 61 case Nodes => 89
  }

  /** The stage a restart goes on with. */
  function NextStage(s: Stage): Stage {
    match s case Started => Operators case Operators => Nodes case Nodes => Nodes
  }

  datatype Entry =
    | Completed(version: Version, started: int, finished: int, verified: bool, risks: Option<string>)
    | Partial(version: Version, started: int, risks: Option<string>)

  datatype Update = Update(origin: Version, goal: Version, stage: Stage, started: int, risks: Option<string>)

  datatype World = World(version: Version, history: seq<Entry>, update: Option<Update>, acked: bool, refusal: Option<string>)

  /** The stage annotation. */
  datatype Label = Idle | At(stage: Stage) | Done

  /** The ClusterVersion: its annotation, what it says of versions and progress, and the admin's
      acknowledgement beside it. `desired` is `None` while there is no status yet. */
  datatype Cluster = Cluster(mark: Label, desired: Option<Version>, history: seq<Entry>, percent: Option<nat>,
                             refusal: Option<string>, acked: bool)

  // ----- Reading and writing the world -----

  /** `world_from_cluster` */
  function WorldFrom(c: Cluster): World {
    var desired := match c.desired case Some(v) => v case None => BASE_VERSION;
    if c.history != [] && c.history[0].Partial? && c.mark.At? then
      var top, rest := c.history[0], c.history[1..];
      var origin := if rest != [] then rest[0].version else desired;
      World(origin, rest, Some(Update(origin, top.version, c.mark.stage, top.started, top.risks)), c.acked, None)
    else World(desired, c.history, None, c.acked, None)
  }

  function Target(w: World): Version {
    match w.update case Some(u) => u.goal case None => w.version
  }

  /** `cv_status`, as `apply_world` writes it with a stage label. */
  function Written(w: World, mark: Label, acked: bool): Cluster {
    Cluster(mark, Some(Target(w)),
            (match w.update case Some(u) => [Partial(u.goal, u.started, u.risks)] case None => []) + w.history,
            match w.update case Some(u) => Some(Percent(u.stage)) case None => None,
            w.refusal, acked)
  }

  ghost predicate AllCompleted(es: seq<Entry>) {
    forall i :: 0 <= i < |es| ==> es[i].Completed?
  }

  /** The version is that of the newest completed update, and an update starts from it. */
  ghost predicate Sane(w: World) {
    && AllCompleted(w.history) && w.history != [] && w.version == w.history[0].version
    && (w.update.Some? ==> w.update.value.origin == w.version)
  }

  ghost predicate LabelFits(w: World, mark: Label) {
    w.update.Some? ==> mark == At(w.update.value.stage)
  }

  /** What a restart reads is what was written; only a refusal is looked at anew. */
  lemma RoundTrip(w: World, mark: Label, acked: bool)
    requires Sane(w) && LabelFits(w, mark)
    ensures WorldFrom(Written(w, mark, acked)) == w.(refusal := None, acked := acked)
  {
    var c := Written(w, mark, acked);
    match w.update
    case Some(u) =>
      assert c.history[0] == Partial(u.goal, u.started, u.risks) && c.history[1..] == w.history;
    case None => assert c.history == w.history;
  }

  /** The version survives a restart in the middle of an update exactly when some completed entry
      keeps it: with an empty history the target is taken for it. */
  lemma VersionSurvivesExactly(w: World, mark: Label, acked: bool)
    requires AllCompleted(w.history) && LabelFits(w, mark)
    requires w.update.Some? ==> w.update.value.origin == w.version
    ensures WorldFrom(Written(w, mark, acked)).version == w.version <==>
              (w.update.None? || w.version == if w.history == [] then w.update.value.goal else w.history[0].version)
  {
    var c := Written(w, mark, acked);
    match w.update
    case Some(u) =>
      assert c.history[0] == Partial(u.goal, u.started, u.risks) && c.history[1..] == w.history;
    case None => assert c.history == w.history;
  }

  lemma EmptyHistoryLosesTheVersion()
    ensures var w := World(BASE_VERSION, [], Some(Update(BASE_VERSION, TARGET_VERSION, Started, 0, None)), false, None);
            WorldFrom(Written(w, At(Started), false)).version == TARGET_VERSION
  {
    var w := World(BASE_VERSION, [], Some(Update(BASE_VERSION, TARGET_VERSION, Started, 0, None)), false, None);
    VersionSurvivesExactly(w, At(Started), false);
    assert Written(w, At(Started), false).history[1..] == [];
  }

  // ----- Playing an update -----

  function InStage(w: World, goal: Version, stage: Stage, started: int, risks: Option<string>): World {
    w.(update := Some(Update(w.version, goal, stage, started, risks)))
  }

  function Finished(w: World, goal: Version, started: int, finished: int, risks: Option<string>): World {
    w.(version := goal, history := [Completed(goal, started, finished, true, risks)] + w.history, update := None)
  }

  function StartOf(w: World, now: int): int {
    match w.update case Some(u) => u.started case None => now
  }

  /** What the cluster shows, one write after the other, from a stage on. */
  function Shown(w: World, goal: Version, stage: Stage, started: int, risks: Option<string>, finished: int, acked: bool): seq<Cluster>
    decreases 2 - Index(stage)
  {
    [Written(InStage(w, goal, stage, started, risks), At(stage), acked)]
    + if stage.Nodes? then [Written(Finished(w, goal, started, finished, risks), Done, acked)]
      else Shown(w, goal, NextStage(stage), started, risks, finished, acked)
  }

  class Simulator {
    var cluster: Cluster
    var world: World
    ghost var shown: seq<Cluster>

    constructor (c: Cluster)
      ensures cluster == c && world == WorldFrom(c) && shown == []
    {
      cluster, world, shown := c, WorldFrom(c), [];
    }

    /** `apply_world`, taken as one write. */
    method ApplyWorld(mark: Label)
      modifies this
      ensures world == old(world) && cluster == Written(world, mark, old(cluster).acked)
      ensures shown == old(shown) + [cluster]
    {
      cluster := Written(world, mark, cluster.acked);
      shown := shown + [cluster];
    }

    /** `play`: through the stages from `start` on, to the end. */
    method Play(goal: Version, risks: Option<string>, start: Stage, now: int, finished: int)
      modifies this
      ensures world == Finished(old(world), goal, StartOf(old(world), now), finished, risks)
      ensures shown == old(shown) + Shown(old(world), goal, start, StartOf(old(world), now), risks, finished, old(cluster).acked)
      ensures cluster == Written(world, Done, old(cluster).acked)
    {
      hide Written, Shown;
      var started := match world.update case Some(u) => u.started case None => now;
      ghost var w, acked := world, cluster.acked;
      var i := Index(start);
      while i < |UPDATE_STAGES|
        invariant Index(start) <= i <= 3 && cluster.acked == acked
        invariant world == w.(update := world.update)
        invariant shown + Rest(w, goal, i, started, risks, finished, acked) == old(shown) + Rest(w, goal, Index(start), started, risks, finished, acked)
      {
        ghost var before := shown;
        var stage := UPDATE_STAGES[i];
        world := world.(update := Some(Update(world.version, goal, stage, started, risks)));
        ApplyWorld(At(stage));
        WrittenKeeps(world, At(stage), acked);
        RestStep(w, goal, i, started, risks, finished, acked);
        i := i + 1;
      }
      world := world.(version := goal, history := [Completed(goal, started, finished, true, risks)] + world.history, update := None);
      ApplyWorld(Done);
    }

    /** One round of `cvo`: a half-way update is finished first; else an accepted request is played, and
        a refused one is shown. */
    method Follow(available: set<Version>, conditional: map<Version, seq<string>>, desired: Desired, now: int, finished: int)
      modifies this
      ensures var c := old(cluster);
              var w := WorldFrom(c);
              var p := Preconditions(w, available, conditional, desired);
              if w.update.Some? then
                var u := w.update.value;
                && shown == old(shown) + Shown(w, u.goal, NextStage(u.stage), u.started, u.risks, finished, c.acked)
                && cluster == Written(Finished(w, u.goal, u.started, finished, u.risks), Done, c.acked)
              else if p.target.Some? then
                && shown == old(shown) + Shown(w, p.target.value, Started, now, p.risks, finished, c.acked)
                && cluster == Written(Finished(w, p.target.value, now, finished, p.risks), Done, c.acked)
              else
                && shown == old(shown) + [cluster]
                && cluster == Written(w.(refusal := p.refusal), c.mark, c.acked)
    {
      world := WorldFrom(cluster);
      if world.update.Some? {
        var u := world.update.value;
        Play(u.goal, u.risks, NextStage(u.stage), now, finished);
      } else {
        var p := Preconditions(world, available, conditional, desired);
        if p.target.Some? {
          Play(p.target.value, p.risks, Started, now, finished);
        } else {
          world := world.(refusal := p.refusal);
          ApplyWorld(cluster.mark);
        }
      }
    }
  }

  /** What is still shown before stage number `i`. */
  function Rest(w: World, goal: Version, i: nat, started: int, risks: Option<string>, finished: int, acked: bool): seq<Cluster> {
    if i < 3 then Shown(w, goal, UPDATE_STAGES[i], started, risks, finished, acked)
    else [Written(Finished(w, goal, started, finished, risks), Done, acked)]
  }

  lemma RestStep(w: World, goal: Version, i: nat, started: int, risks: Option<string>, finished: int, acked: bool)
    requires i < 3
    ensures var stage := UPDATE_STAGES[i];
            Rest(w, goal, i, started, risks, finished, acked)
            == [Written(InStage(w, goal, stage, started, risks), At(stage), acked)] + Rest(w, goal, i + 1, started, risks, finished, acked)
  {
    hide Written;
  }

  lemma WrittenKeeps(w: World, mark: Label, acked: bool)
    ensures Written(w, mark, acked).acked == acked
  {
  }

  // ----- Whether an update may start -----

  datatype Image = ImageOf(v: Version) | Foreign(text: string)

  datatype Desired = Desired(version: Option<Version>, image: Option<Image>, force: bool, acceptRisks: set<string>)

  /** `risks` is why an update that is not recommended goes ahead. */
  datatype Precondition = Precondition(target: Option<Version>, risks: Option<string>, refusal: Option<string>)

  function Asked(desired: Desired): Option<Version> {
    if desired.version.Some? then desired.version
    else match desired.image
      case Some(ImageOf(v)) => if v in KNOWN then Some(v) else None
      case _ => None
  }

  predicate Blocked(w: World, t: Version) {
    t.minor != w.version.minor && w.version.minor == GATED_MINOR && !w.acked
  }

  predicate RisksAccepted(t: Version, conditional: map<Version, seq<string>>, desired: Desired) {
    t in conditional && forall i :: 0 <= i < |conditional[t]| ==> conditional[t][i] in desired.acceptRisks
  }

  function Failures(w: World, available: set<Version>, conditional: map<Version, seq<string>>, desired: Desired, t: Version): seq<string> {
    (if Blocked(w, t) then ["AdminAckRequired"] else [])
    + if t in available || RisksAccepted(t, conditional, desired) then []
      else if t in conditional then ["not recommended"] else ["UnknownUpdate"]
  }

  function Preconditions(w: World, available: set<Version>, conditional: map<Version, seq<string>>, desired: Desired): Precondition {
    match Asked(desired)
    case None =>
      if desired.image.None? then Precondition(None, None, None) else Precondition(None, None, Some("RetrievePayload"))
    case Some(t) =>
      if t == w.version then Precondition(None, None, None)
      else if t !in KNOWN then Precondition(None, None, Some("VersionNotFound"))
      else
        var failures := Failures(w, available, conditional, desired, t);
        if failures == [] then Precondition(Some(t), if t in available then None else Some("accepted"), None)
        else if desired.force then Precondition(Some(t), Some("Forced"), None)
        else Precondition(None, None, Some("PreconditionChecks"))
  }

  /** An update starts exactly when a known version other than the present one is asked for and: it is
      forced, or the admin gate does not hold it and it is recommended or all its risks are accepted. */
  lemma StartsExactly(w: World, available: set<Version>, conditional: map<Version, seq<string>>, desired: Desired, t: Version)
    ensures Preconditions(w, available, conditional, desired).target == Some(t) <==>
              && Asked(desired) == Some(t) && t != w.version && t in KNOWN
              && (desired.force || (!Blocked(w, t) && (t in available || RisksAccepted(t, conditional, desired))))
  {
    if Asked(desired) == Some(t) {
      var failures := Failures(w, available, conditional, desired, t);
      assert failures == [] <==> !Blocked(w, t) && (t in available || RisksAccepted(t, conditional, desired));
    }
  }

  /** What is refused is asked for, is not what runs, and does not start; nothing else is refused. */
  lemma RefusesExactly(w: World, available: set<Version>, conditional: map<Version, seq<string>>, desired: Desired)
    ensures var p := Preconditions(w, available, conditional, desired);
            p.refusal.Some? <==>
              p.target.None? && (desired.version.Some? || desired.image.Some?) && Asked(desired) != Some(w.version)
  {
  }

  /** A forced update goes past the admin gate. */
  lemma ForceSkipsTheGate()
    ensures var w := World(BASE_VERSION, [], None, false, None);
            Blocked(w, Version(18, 2))
            && Preconditions(w, {}, map[], Desired(Some(Version(18, 2)), None, true, {})).target == Some(Version(18, 2))
  {
  }

  // ----- Interrupted anywhere -----

  /** The next write after `c`, by whoever goes on with the update, at time `now`. */
  ghost predicate Advances(c: Cluster, d: Cluster, now: int) {
    var w := WorldFrom(c);
    w.update.Some? &&
    var u, v := w.update.value, w.(refusal := None);
    || d == Written(InStage(v, u.goal, NextStage(u.stage), u.started, u.risks), At(NextStage(u.stage)), d.acked)
    || (u.stage.Nodes? && d == Written(Finished(v, u.goal, u.started, now, u.risks), Done, d.acked))
  }

  /** Every write of a play follows from the one before as if a restart had made it. */
  lemma {:induction false} PlayAdvances(w: World, goal: Version, stage: Stage, started: int, risks: Option<string>, finished: int,
                                        acked: bool, k: nat)
    requires Sane(w) && w.refusal.None? && k + 1 < |Shown(w, goal, stage, started, risks, finished, acked)|
    ensures var s := Shown(w, goal, stage, started, risks, finished, acked);
            Advances(s[k], s[k + 1], finished)
    decreases 2 - Index(stage)
  {
    var s := Shown(w, goal, stage, started, risks, finished, acked);
    var v := InStage(w, goal, stage, started, risks);
    RoundTrip(v, At(stage), acked);
    if k == 0 {
      if stage.Nodes? {
        assert s[1] == Written(Finished(w, goal, started, finished, risks), Done, acked);
      } else {
        assert s[1] == Shown(w, goal, NextStage(stage), started, risks, finished, acked)[0];
      }
    } else {
      PlayAdvances(w, goal, NextStage(stage), started, risks, finished, acked, k - 1);
      assert s[k] == Shown(w, goal, NextStage(stage), started, risks, finished, acked)[k - 1];
      assert s[k + 1] == Shown(w, goal, NextStage(stage), started, risks, finished, acked)[k];
    }
  }

  /** And so does the first write after a restart, whatever was written last. */
  lemma RestartAdvances(c: Cluster, finished: int)
    requires WorldFrom(c).update.Some?
    ensures var w := WorldFrom(c);
            var u := w.update.value;
            Advances(c, Shown(w, u.goal, NextStage(u.stage), u.started, u.risks, finished, c.acked)[0], finished)
  {
  }

  /** Writes that follow one another, through any number of interruptions and restarts. */
  ghost predicate Course(cs: seq<Cluster>, times: seq<int>) {
    |cs| == |times| + 1 && forall i :: 0 <= i < |times| ==> Advances(cs[i], cs[i + 1], times[i])
  }

  predicate UnderWay(c: Cluster, w: World, u: Update, stage: Stage) {
    c == Written(InStage(w, u.goal, stage, u.started, u.risks), At(stage), c.acked)
  }

  predicate Ended(c: Cluster, w: World, u: Update, now: int) {
    c == Written(Finished(w, u.goal, u.started, now, u.risks), Done, c.acked)
  }

  /** The update is under way from `w` to its goal, or has ended with one entry of its own. */
  ghost predicate OnItsWay(c: Cluster, w: World, u: Update) {
    (exists stage :: UnderWay(c, w, u, stage)) || (exists now :: Ended(c, w, u, now))
  }

  function ProgressOf(c: Cluster): nat {
    match c.percent case Some(p) => p case None => 100
  }

  lemma UnderWayUpdates(c: Cluster, w: World, u: Update, stage: Stage)
    requires Sane(w) && UnderWay(c, w, u, stage)
    ensures WorldFrom(c) == InStage(w, u.goal, stage, u.started, u.risks).(refusal := None, acked := c.acked)
  {
    RoundTrip(InStage(w, u.goal, stage, u.started, u.risks), At(stage), c.acked);
  }

  lemma EndedUpdates(c: Cluster, w: World, u: Update, now: int)
    requires Sane(w) && Ended(c, w, u, now)
    ensures WorldFrom(c).update.None? && WorldFrom(c).version == u.goal
    ensures WorldFrom(c).history == [Completed(u.goal, u.started, now, true, u.risks)] + w.history
  {
  }

  lemma AdvanceKeeps(c: Cluster, d: Cluster, now: int, w: World, u: Update)
    requires Sane(w) && w.refusal.None? && OnItsWay(c, w, u) && Advances(c, d, now)
    ensures OnItsWay(d, w, u) && ProgressOf(c) <= ProgressOf(d)
  {
    forall t ensures !Ended(c, w, u, t) {
      if Ended(c, w, u, t) { EndedUpdates(c, w, u, t); }
    }
    var stage :| UnderWay(c, w, u, stage);
    var v := InStage(w, u.goal, stage, u.started, u.risks);
    UnderWayUpdates(c, w, u, stage);
    if d.mark == Done {
      assert Ended(d, w, u, now);
    } else {
      assert UnderWay(d, w, u, NextStage(stage));
    }
  }

  lemma {:induction false} CourseKeeps(cs: seq<Cluster>, times: seq<int>, w: World, u: Update, i: nat)
    requires Sane(w) && w.refusal.None? && Course(cs, times) && i < |cs| && UnderWay(cs[0], w, u, u.stage)
    ensures OnItsWay(cs[i], w, u) && (i > 0 ==> ProgressOf(cs[i - 1]) <= ProgressOf(cs[i]))
    decreases i
  {
    hide OnItsWay, Advances, ProgressOf;
    if i == 0 {
      StartsOnItsWay(cs[0], w, u);
    } else {
      CourseKeeps(cs, times, w, u, i - 1);
      AdvanceKeeps(cs[i - 1], cs[i], times[i - 1], w, u);
    }
  }

  lemma StartsOnItsWay(c: Cluster, w: World, u: Update)
    requires UnderWay(c, w, u, u.stage)
    ensures OnItsWay(c, w, u)
  {
  }

  /** The history has gained one entry, for the goal of the update, since its start. */
  ghost predicate EndedOnce(v: World, w: World, u: Update) {
    exists now :: v.history == [Completed(u.goal, u.started, now, true, u.risks)] + w.history && v.version == u.goal
  }

  /** However often the operator is stopped and started again, between any two writes: the update keeps
      its origin, goal, start and accepted risks; its progress never falls; and when it has ended, the
      history has gained exactly one entry, completed, for that goal. */
  lemma InterruptionsDoNotShow(cs: seq<Cluster>, times: seq<int>, w: World, u: Update, i: nat)
    requires Sane(w) && w.refusal.None? && Course(cs, times) && i < |cs| && UnderWay(cs[0], w, u, u.stage)
    ensures i > 0 ==> ProgressOf(cs[i - 1]) <= ProgressOf(cs[i])
    ensures var v := WorldFrom(cs[i]);
            match v.update
            case Some(x) => v.version == w.version && v.history == w.history && x == u.(origin := w.version, stage := x.stage)
            case None => EndedOnce(v, w, u)
  {
    hide ProgressOf, Advances, WorldFrom, UnderWay, Ended;
    CourseKeeps(cs, times, w, u, i);
    var c := cs[i];
    if stage :| UnderWay(c, w, u, stage) {
      UnderWayUpdates(c, w, u, stage);
    } else {
      var now :| Ended(c, w, u, now);
      EndedUpdates(c, w, u, now);
    }
  }

  // ----- Every world -----

  /** What can happen to the cluster: a fixed stage is set, an update is started or goes on, a request
      is refused or nothing is asked, the admin acknowledges or takes it back. */
  datatype Change =
    | SetStage(world: World, mark: Label)
    | Start(goal: Version, risks: Option<string>, now: int)
    | Advance(next: Cluster, now: int)
    | Refresh(refusal: Option<string>)
    | Acknowledge(acked: bool)

  ghost predicate Possible(c: Cluster, change: Change) {
    match change
    case SetStage(w, mark) => Sane(w) && LabelFits(w, mark)
    case Start(_, _, _) => WorldFrom(c).update.None?
    case Advance(d, now) => Advances(c, d, now)
    case Refresh(_) => WorldFrom(c).update.None?
    case Acknowledge(_) => true
  }

  ghost function Changed(c: Cluster, change: Change): Cluster {
    var w := WorldFrom(c);
    match change
    case SetStage(v, mark) => Written(v, mark, false)
    case Start(goal, risks, now) => Written(InStage(w, goal, Started, now, risks), At(Started), c.acked)
    case Advance(d, _) => d
    case Refresh(refusal) => Written(w.(refusal := refusal), c.mark, c.acked)
    case Acknowledge(acked) => c.(acked := acked)
  }

  lemma ChangeKeepsSane(c: Cluster, change: Change)
    requires Sane(WorldFrom(c)) && Possible(c, change)
    ensures Sane(WorldFrom(Changed(c, change)))
  {
    var w := WorldFrom(c);
    match change
    case SetStage(v, mark) => RoundTrip(v, mark, false);
    case Start(goal, risks, now) => RoundTrip(InStage(w, goal, Started, now, risks), At(Started), c.acked);
    case Advance(d, now) =>
    case Refresh(refusal) => RoundTrip(w.(refusal := refusal), c.mark, c.acked);
    case Acknowledge(acked) =>
  }

  /** The worlds the fixed stages set; `base` is the installed history, newest first. */
  function FixedWorld(mark: Label, base: seq<Entry>, started: int, finished: int): World {
    var idle := World(BASE_VERSION, base, None, false, None);
    match mark
    case Idle => idle
    case At(stage) => InStage(idle, TARGET_VERSION, stage, started, None)
    case Done => Finished(idle, TARGET_VERSION, started, finished, None)
  }

  lemma FixedWorldsAreSane(mark: Label, base: seq<Entry>, started: int, finished: int)
    requires AllCompleted(base) && base != [] && base[0].version == BASE_VERSION
    ensures Sane(FixedWorld(mark, base, started, finished)) && LabelFits(FixedWorld(mark, base, started, finished), mark)
  {
  }

  ghost predicate Changes(c: Cluster, changes: seq<Change>, d: Cluster)
    decreases |changes|
  {
    if changes == [] then c == d else Possible(c, changes[0]) && Changes(Changed(c, changes[0]), changes[1..], d)
  }

  /** In every state the cluster reaches from a fixed stage, the world it shows runs the version of its
      newest completed entry, all older entries are completed, and an update starts from there. */
  lemma {:induction false} EveryWorldIsSane(c: Cluster, changes: seq<Change>, d: Cluster)
    requires Sane(WorldFrom(c)) && Changes(c, changes, d)
    ensures Sane(WorldFrom(d))
    decreases |changes|
  {
    if changes != [] {
      ChangeKeepsSane(c, changes[0]);
      EveryWorldIsSane(Changed(c, changes[0]), changes[1..], d);
    }
  }

  // ----- In plain words -----

  predicate IsKnown(t: Version) {
    || (t.minor == 15 && t.z == 30)
    || (t.minor == 16 && (t.z == 10 || t.z == 24))
    || (t.minor == 17 && (t.z == 6 || (8 <= t.z <= 14)))
    || (t.minor == 18 && (t.z == 2 || t.z == 3 || t.z == 4))
  }

  lemma KnownExactly(t: Version)
    ensures t in KNOWN <==> IsKnown(t)
  {
    assert KNOWN[0] == Version(15, 30) && KNOWN[1] == Version(16, 10) && KNOWN[2] == Version(16, 24) && KNOWN[3] == Version(17, 6);
    assert KNOWN[4] == Version(17, 8) && KNOWN[5] == Version(17, 9) && KNOWN[6] == Version(17, 10) && KNOWN[7] == Version(17, 11);
    assert KNOWN[8] == Version(17, 12) && KNOWN[9] == Version(17, 13) && KNOWN[10] == Version(17, 14);
    assert KNOWN[11] == Version(18, 2) && KNOWN[12] == Version(18, 3) && KNOWN[13] == Version(18, 4);
  }

  /** The version is asked for, by its number, or, without one, by the image of a known release. */
  predicate AsksFor(desired: Desired, t: Version) {
    || desired.version == Some(t)
    || (desired.version.None? && desired.image == Some(ImageOf(t)) && IsKnown(t))
  }

  /** An update starts exactly when a known version other than the present one is asked for, and it is
      forced; or the version is recommended or every one of its risks is accepted, and it stays within the
      minor version, or does not leave 4.17, or the admin gate is acknowledged. */
  lemma StartsInWords(w: World, available: set<Version>, conditional: map<Version, seq<string>>, desired: Desired, t: Version)
    ensures Preconditions(w, available, conditional, desired).target == Some(t) <==>
              && AsksFor(desired, t) && t != w.version && IsKnown(t)
              && (desired.force
                  || ((t in available || (t in conditional && forall risk :: risk in conditional[t] ==> risk in desired.acceptRisks))
                      && (t.minor == w.version.minor || w.version.minor != 17 || w.acked)))
  {
    hide Preconditions;
    StartsExactly(w, available, conditional, desired, t);
    KnownExactly(t);
    if desired.image.Some? && desired.image.value.ImageOf? { KnownExactly(desired.image.value.v); }
    if t in conditional {
      assert forall i :: 0 <= i < |conditional[t]| ==> conditional[t][i] in conditional[t];
    }
  }

  /** The update may go ahead without force: within the minor version, or not out of 4.17, or with the gate
      acknowledged; and recommended, or with every risk accepted. */
  ghost predicate MayUpdate(w: World, available: set<Version>, conditional: map<Version, seq<string>>, desired: Desired, t: Version) {
    && (t.minor == w.version.minor || w.version.minor != 17 || w.acked)
    && (t in available || (t in conditional && forall risk :: risk in conditional[t] ==> risk in desired.acceptRisks))
  }

  /** Why a request is refused: an image of no known release; a version that is none; or one that may not be
      gone to. And why an update goes ahead all the same: forced, or with its risks accepted. */
  lemma ReasonsInWords(w: World, available: set<Version>, conditional: map<Version, seq<string>>, desired: Desired)
    ensures var p := Preconditions(w, available, conditional, desired);
            && (p.refusal == Some("RetrievePayload") <==>
                  desired.version.None? && desired.image.Some? && forall t :: !AsksFor(desired, t))
            && (p.refusal == Some("VersionNotFound") <==> exists t :: AsksFor(desired, t) && t != w.version && !IsKnown(t))
            && (p.refusal == Some("PreconditionChecks") <==>
                  !desired.force && exists t :: AsksFor(desired, t) && t != w.version && IsKnown(t) && !MayUpdate(w, available, conditional, desired, t))
            && (p.risks == Some("Forced") <==> p.target.Some? && !MayUpdate(w, available, conditional, desired, p.target.value))
            && (p.risks == Some("accepted") <==>
                  p.target.Some? && p.target.value !in available && MayUpdate(w, available, conditional, desired, p.target.value))
  {
    hide IsKnown;
    forall t ensures t in KNOWN <==> IsKnown(t) { KnownExactly(t); }
    AskedExactly(desired);
    match Asked(desired)
    case None =>
    case Some(t) =>
      MayExactly(w, available, conditional, desired, t);
      assert AsksFor(desired, t);
  }

  lemma AskedExactly(desired: Desired)
    ensures match Asked(desired)
            case None => forall t :: !AsksFor(desired, t)
            case Some(t) => forall u :: AsksFor(desired, u) <==> u == t
  {
    hide IsKnown;
    forall t ensures t in KNOWN <==> IsKnown(t) { KnownExactly(t); }
  }

  lemma MayExactly(w: World, available: set<Version>, conditional: map<Version, seq<string>>, desired: Desired, t: Version)
    ensures MayUpdate(w, available, conditional, desired, t) <==> Failures(w, available, conditional, desired, t) == []
  {
    if t in conditional {
      assert forall i :: 0 <= i < |conditional[t]| ==> conditional[t][i] in conditional[t];
    }
  }

  /** What the cluster shows of a world: its annotation, the version it goes to or runs, its progress, and an
      update under way as an unfinished entry before all others. */
  predicate Shows(c: Cluster, mark: Label, version: Version, percent: Option<nat>, history: seq<Entry>) {
    c.mark == mark && c.desired == Some(version) && c.percent == percent && c.history == history && c.refusal.None?
  }

  /** An update from its first stage: 12 %, 61 % and 89 %, with the unfinished entry on top; and then the
      end, with that entry completed in its place. */
  lemma StagesInWords(w: World, goal: Version, started: int, risks: Option<string>, finished: int, acked: bool)
    requires w.refusal.None?
    ensures var s, open := Shown(w, goal, Started, started, risks, finished, acked), [Partial(goal, started, risks)] + w.history;
            && |s| == 4
            && Shows(s[0], At(Started), goal, Some(12), open) && Shows(s[1], At(Operators), goal, Some(61), open)
            && Shows(s[2], At(Nodes), goal, Some(89), open)
            && Shows(s[3], Done, goal, None, [Completed(goal, started, finished, true, risks)] + w.history)
            && s[1..] == Shown(w, goal, Operators, started, risks, finished, acked)
            && s[2..] == Shown(w, goal, Nodes, started, risks, finished, acked)
  {
    var nodes := Shown(w, goal, Nodes, started, risks, finished, acked);
    var operators := Shown(w, goal, Operators, started, risks, finished, acked);
    assert operators == [operators[0]] + nodes && operators[1..] == nodes;
    var all := Shown(w, goal, Started, started, risks, finished, acked);
    assert all == [all[0]] + operators && all[1..] == operators && all[2..] == nodes;
    assert [] + w.history == w.history;
  }

  /** A restart in the middle of an update reads what is under way, and the next write is of the stage
      after it; the last stage is shown again. */
  lemma ResumesInWords(c: Cluster, stage: Stage, goal: Version, started: int, risks: Option<string>, rest: seq<Entry>, finished: int)
    requires c.mark == At(stage) && c.history == [Partial(goal, started, risks)] + rest && rest != []
    ensures var w := WorldFrom(c);
            && w.version == rest[0].version && w.history == rest && w.update.Some?
            && w.update.value == Update(rest[0].version, goal, stage, started, risks)
            && var u := w.update.value;
               var next := Shown(w, u.goal, NextStage(u.stage), u.started, u.risks, finished, c.acked)[0];
               Shows(next, At(if stage == Started then Operators else Nodes), goal, Some(if stage == Started then 61 else 89), c.history)
  {
    assert c.history[0] == Partial(goal, started, risks) && c.history[1..] == rest;
  }
}
