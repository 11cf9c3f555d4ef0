/** The stamp that says every alert of an incident has resolved. */
module ClearedStamps {
  import opened Text
  import opened Walks
  import opened Topology
  import opened Incidents

  predicate StampHolds(cfg: Config, s: State, i: Id)
    requires i < |s.incidents|
  {
    s.incidents[i].clearedAt.Some? ==> !StillFiring(cfg, s, i, s.clock)
  }

  predicate StampsHold(cfg: Config, s: State) { forall i :: 0 <= i < |s.incidents| ==> StampHolds(cfg, s, i) }

  /** Nothing became fresher than it was, except on incidents without a stamp. */
  predicate NoFresher(cfg: Config, s: State, s': State) {
    && |s.incidents| <= |s'.incidents| && s.clock <= s'.clock
    && (forall i :: 0 <= i < |s'.incidents| && s'.incidents[i].clearedAt.Some? ==>
          i < |s.incidents| && s.incidents[i].clearedAt.Some?)
    && (forall k: (Id, string) ::
          k in s'.attached && s'.attached[k].firing && k.0 < |s'.incidents| && s'.incidents[k.0].clearedAt.Some? ==>
          k in s.attached && s.attached[k].firing && s'.attached[k].lastSeen <= s.attached[k].lastSeen)
  }

  lemma NoFresherKeeps(cfg: Config, s: State, s': State)
    requires StampsHold(cfg, s) && NoFresher(cfg, s, s')
    ensures StampsHold(cfg, s')
  {
    forall i | 0 <= i < |s'.incidents| ensures StampHolds(cfg, s', i) {
      assert s'.incidents[i].clearedAt.Some? ==> StampHolds(cfg, s, i);
    }
  }

  /** A stamp is set only when no fresh alert is left, as of a time the clock has passed. */
  lemma ResolveKeepsStamps(cfg: Config, s: State, a: Alert, now: Time)
    requires StampsHold(cfg, s) && now <= s.clock
    ensures StampsHold(cfg, Resolve(cfg, s, a, now)) && Resolve(cfg, s, a, now).clock == s.clock
  {
    hide FiringOn;
    var found := Latest(s, FiringOn(s, KeyOf(a)), |s.incidents|);
    if found.Some? {
      FoundFiring(s, KeyOf(a), found.value);
      var i := found.value;
      var t := MarkResolved(AddSignal(s, Signal(i, a, false, "", [])), i, KeyOf(a), now);
      NoFresherKeeps(cfg, s, t);
      if !StillFiring(cfg, t, i, now) { StampKeeps(cfg, t, i, now); }
    }
  }

  lemma FoundFiring(s: State, key: string, i: Id)
    requires i in FiringOn(s, key)
    ensures i < |s.incidents| && (i, key) in s.attached && s.attached[(i, key)].firing
  {
  }

  lemma StampKeeps(cfg: Config, s: State, i: Id, now: Time)
    requires StampsHold(cfg, s) && now <= s.clock && i < |s.incidents| && !StillFiring(cfg, s, i, now)
    ensures StampsHold(cfg, WithIncident(s, i, s.incidents[i].(clearedAt := Some(now))))
  {
    var t := WithIncident(s, i, s.incidents[i].(clearedAt := Some(now)));
    forall j | 0 <= j < |t.incidents| ensures StampHolds(cfg, t, j) {
      assert StampHolds(cfg, s, j);
      forall k | k in t.attached && k.0 == i ensures !FreshFiring(cfg, t, i, k.1, t.clock) {
        assert !FreshFiring(cfg, s, i, k.1, now);
      }
    }
  }

  lemma {:induction false} ResolveAllKeepsStamps(cfg: Config, p: Progress, alerts: seq<Alert>, now: Time)
    requires StampsHold(cfg, p.state) && now <= p.state.clock
    ensures StampsHold(cfg, ResolveAll(cfg, p, alerts, now).state) && ResolveAll(cfg, p, alerts, now).state.clock == p.state.clock
  {
    hide StampsHold, Resolve;
    if |alerts| > 0 {
      var n := |alerts| - 1;
      ResolveAllKeepsStamps(cfg, p, alerts[..n], now);
      ResolveKeepsStamps(cfg, ResolveAll(cfg, p, alerts[..n], now).state, alerts[n], now);
    }
  }

  lemma PlaceKeepsStamps(cfg: Config, g: Deps, s: State, open: seq<Incident>, c: Cluster, root: Alert, now: Time)
    ensures var placed := Place(cfg, g, s, open, c, root, now);
            && placed.incident < |placed.state.incidents| && placed.state.clock == s.clock && placed.state.attached == s.attached
            && |s.incidents| <= |placed.state.incidents| && (placed.created || placed.incident < |s.incidents|)
            && (forall i :: 0 <= i < |s.incidents| ==> placed.state.incidents[i].clearedAt == s.incidents[i].clearedAt)
            && (forall i :: |s.incidents| <= i < |placed.state.incidents| ==> placed.state.incidents[i].clearedAt.None?)
  {
    hide Related, Carrying;
  }

  // ----- Firing notifications -----

  /** Attaching alerts takes the stamp off their incident and counts one re-fire exactly when it was there. */
  lemma {:induction false} AttachAllStamps(g: Deps, p: Progress, i: Id, alerts: seq<Alert>, now: Time)
    requires i < |p.state.incidents|
    ensures var q := AttachAll(g, p, i, alerts, now);
            && q.state.clock == p.state.clock
            && q.state.incidents[i].clearedAt == (if |alerts| > 0 then None else p.state.incidents[i].clearedAt)
            && q.stats.refired == p.stats.refired + (if |alerts| > 0 && p.state.incidents[i].clearedAt.Some? then 1 else 0)
            && (forall j :: 0 <= j < |p.state.incidents| && j != i ==> q.state.incidents[j] == p.state.incidents[j])
  {
    hide PathFor, KeyOf;
    if |alerts| > 0 { AttachAllStamps(g, p, i, alerts[..|alerts| - 1], now); }
  }

  lemma {:induction false} AttachAllRows(g: Deps, p: Progress, i: Id, alerts: seq<Alert>, now: Time)
    requires i < |p.state.incidents|
    ensures var q := AttachAll(g, p, i, alerts, now);
            forall k :: k in q.state.attached && k.0 != i ==> k in p.state.attached && q.state.attached[k] == p.state.attached[k]
  {
    hide PathFor, KeyOf;
    if |alerts| > 0 { AttachAllRows(g, p, i, alerts[..|alerts| - 1], now); }
  }

  /** Incidents of s0 that had a stamp and no longer do. */
  function Unstamped(s0: State, s: State): set<Id> {
    set i | 0 <= i < |s0.incidents| && i < |s.incidents| && s0.incidents[i].clearedAt.Some? && s.incidents[i].clearedAt.None?
  }

  /** Between two clusters: no stamp was added, and as many re-fires were counted as stamps taken off. */
  ghost predicate Counting(cfg: Config, s0: State, p: Progress) {
    && StampsHold(cfg, p.state) && p.state.clock == s0.clock && |s0.incidents| <= |p.state.incidents|
    && (forall i :: 0 <= i < |p.state.incidents| && p.state.incidents[i].clearedAt.Some? ==>
          i < |s0.incidents| && s0.incidents[i].clearedAt.Some?)
    && p.stats.refired == |Unstamped(s0, p.state)|
  }

  lemma UnstampedOne(s0: State, s: State, s': State, i: Id)
    requires |s0.incidents| <= |s.incidents| <= |s'.incidents| && i < |s'.incidents| && s'.incidents[i].clearedAt.None?
    requires forall j :: 0 <= j < |s0.incidents| && j != i ==> s'.incidents[j].clearedAt == s.incidents[j].clearedAt
    requires i < |s.incidents| && s.incidents[i].clearedAt.Some? ==> i < |s0.incidents| && s0.incidents[i].clearedAt.Some?
    ensures |Unstamped(s0, s')| == |Unstamped(s0, s)| + if i < |s.incidents| && s.incidents[i].clearedAt.Some? then 1 else 0
  {
    if i < |s.incidents| && s.incidents[i].clearedAt.Some? {
      assert Unstamped(s0, s') == Unstamped(s0, s) + {i};
      assert i !in Unstamped(s0, s);
    } else {
      assert Unstamped(s0, s') == Unstamped(s0, s);
    }
  }

  lemma IngestClusterCounts(cfg: Config, g: Deps, s0: State, p: Progress, alerts: seq<Alert>, c: Cluster, now: Time)
    requires Counting(cfg, s0, p)
    ensures Counting(cfg, s0, IngestCluster(cfg, g, p, alerts, c, now))
  {
    hide Place, RootUnseen, AlertsFor, AppendOrReplace, AttachAll, StampsHold, RootAlert, Unstamped;
    var mine := AlertsFor(alerts, c);
    if |mine| > 0 {
      var root := RootAlert(mine, c.group.root);
      var placed := Place(cfg, g, p.state, p.open, c, root, now);
      PlaceKeepsStamps(cfg, g, p.state, p.open, c, root, now);
      var i := placed.incident;
      var inferred := if placed.created || placed.promoted then c.group.inferred else RootUnseen(p.state, i);
      var start := Progress(placed.state, p.open, CountGroup(p.stats, c, inferred));
      AttachAllStamps(g, start, i, mine, now);
      AttachAllRows(g, start, i, mine, now);
      var q := AttachAll(g, start, i, mine, now);
      NoFresherKeeps(cfg, p.state, q.state);
      UnstampedOne(s0, p.state, q.state, i);
    }
  }

  lemma {:induction false} IngestClustersCount(
    cfg: Config, g: Deps, s0: State, p: Progress, alerts: seq<Alert>, cs: seq<Cluster>, now: Time)
    requires Counting(cfg, s0, p)
    ensures Counting(cfg, s0, IngestClusters(cfg, g, p, alerts, cs, now))
  {
    hide Counting, IngestCluster;
    if |cs| > 0 {
      var n := |cs| - 1;
      IngestClustersCount(cfg, g, s0, p, alerts, cs[..n], now);
      IngestClusterCounts(cfg, g, s0, IngestClusters(cfg, g, p, alerts, cs[..n], now), alerts, cs[n], now);
    }
  }

  lemma ResolvedCountNoRefire(cfg: Config, p: Progress, alerts: seq<Alert>, now: Time)
    ensures ResolveAll(cfg, p, alerts, now).stats.refired == p.stats.refired
  {
  }

  lemma NothingUnstamped(s: State)
    ensures Unstamped(s, s) == {}
  {
  }

  // ----- Rows of this delivery -----

  /** The alert is marked firing on the incident, as of now, and the incident is not stamped. */
  predicate MarkedFiring(s: State, x: Signal, now: Time) {
    var k := (x.incident, KeyOf(x.alert));
    && k in s.attached && s.attached[k].firing && s.attached[k].lastSeen == now
    && x.incident < |s.incidents| && s.incidents[x.incident].clearedAt.None?
  }

  predicate AllMarked(s: State, from: nat, now: Time) {
    forall n :: from <= n < |s.signals| && s.signals[n].firing ==> MarkedFiring(s, s.signals[n], now)
  }

  lemma AttachMarks(g: Deps, s: State, i: Id, a: Alert, from: nat, now: Time)
    requires i < |s.incidents| && AllMarked(s, from, now)
    ensures AllMarked(Attach(g, s, i, a, now), from, now)
  {
    hide KeyOf, PathFor;
    var t := Attach(g, s, i, a, now);
    forall n | from <= n < |t.signals| && t.signals[n].firing ensures MarkedFiring(t, t.signals[n], now) {
      assert n < |s.signals| ==> MarkedFiring(s, s.signals[n], now);
    }
  }

  lemma {:induction false} AttachAllMarks(g: Deps, p: Progress, i: Id, alerts: seq<Alert>, from: nat, now: Time)
    requires i < |p.state.incidents| && AllMarked(p.state, from, now)
    ensures AllMarked(AttachAll(g, p, i, alerts, now).state, from, now)
  {
    hide AllMarked, Attach;
    if |alerts| > 0 {
      var n := |alerts| - 1;
      AttachAllMarks(g, p, i, alerts[..n], from, now);
      AttachMarks(g, AttachAll(g, p, i, alerts[..n], now).state, i, alerts[n], from, now);
    }
  }

  lemma PlaceKeepsMarks(cfg: Config, g: Deps, s: State, open: seq<Incident>, c: Cluster, root: Alert, from: nat, now: Time)
    requires AllMarked(s, from, now)
    ensures AllMarked(Place(cfg, g, s, open, c, root, now).state, from, now)
  {
    hide Related, Carrying, KeyOf;
    PlaceKeepsStamps(cfg, g, s, open, c, root, now);
    var t := Place(cfg, g, s, open, c, root, now).state;
    assert t.signals == s.signals && t.attached == s.attached;
    forall n | from <= n < |t.signals| && t.signals[n].firing ensures MarkedFiring(t, t.signals[n], now) {
      assert MarkedFiring(s, s.signals[n], now);
    }
  }

  lemma {:induction false} IngestClustersMark(
    cfg: Config, g: Deps, p: Progress, alerts: seq<Alert>, cs: seq<Cluster>, from: nat, now: Time)
    requires AllMarked(p.state, from, now)
    ensures AllMarked(IngestClusters(cfg, g, p, alerts, cs, now).state, from, now)
  {
    hide AllMarked, Place, RootUnseen, AlertsFor, AppendOrReplace, AttachAll, RootAlert;
    if |cs| > 0 {
      var n := |cs| - 1;
      IngestClustersMark(cfg, g, p, alerts, cs[..n], from, now);
      var q, mine := IngestClusters(cfg, g, p, alerts, cs[..n], now), AlertsFor(alerts, cs[n]);
      if |mine| > 0 {
        var root := RootAlert(mine, cs[n].group.root);
        var placed := Place(cfg, g, q.state, q.open, cs[n], root, now);
        PlaceKeepsStamps(cfg, g, q.state, q.open, cs[n], root, now);
        PlaceKeepsMarks(cfg, g, q.state, q.open, cs[n], root, from, now);
        var inferred := if placed.created || placed.promoted then cs[n].group.inferred else RootUnseen(q.state, placed.incident);
        AttachAllMarks(g, Progress(placed.state, q.open, CountGroup(q.stats, cs[n], inferred)), placed.incident, mine, from, now);
      }
    }
  }

  lemma {:induction false} ResolvedNotFiring(cfg: Config, p: Progress, alerts: seq<Alert>, now: Time)
    ensures var q := ResolveAll(cfg, p, alerts, now).state;
            |p.state.signals| <= |q.signals| && forall n :: |p.state.signals| <= n < |q.signals| ==> !q.signals[n].firing
  {
    hide StillFiring, FiringOn, KeyOf;
    if |alerts| > 0 { ResolvedNotFiring(cfg, p, alerts[..|alerts| - 1], now); }
  }

  /** After a delivery every firing alert it brought is marked firing, as of the delivery, on the incident its signal
      went to, and that incident is not stamped. */
  lemma DeliveryMarksFiring(cfg: Config, s: State, resolved: seq<Alert>, firing: seq<Alert>, cs: seq<Cluster>, now: Time)
    ensures AllMarked(Ingest(cfg, s, resolved, firing, cs, now).state, |s.signals|, now)
  {
    hide ResolveAll, IngestClusters, OpenFrom, GraphOf;
    var start := Progress(s, [], Stats(|firing|, 0, 0, 0, 0, 0, 0, 0, 0));
    ResolvedNotFiring(cfg, start, resolved, now);
    var p := ResolveAll(cfg, start, resolved, now);
    if |firing| > 0 {
      IngestClustersMark(
        cfg, GraphOf(s.edges), p.(open := OpenFrom(cfg, p.state, 0, now)), firing, cs, |s.signals|, now);
    }
  }

  /** The re-fires a delivery reports are exactly the incidents whose stamp its firing alerts took off. Every incident
      one of them went to ends without a stamp, and no stamp is set by a firing alert. */
  lemma RefiresAreStampsTakenOff(
    cfg: Config, s: State, resolved: seq<Alert>, firing: seq<Alert>, cs: seq<Cluster>, now: Time)
    requires StampsHold(cfg, s) && now <= s.clock
    ensures var start := Progress(s, [], Stats(|firing|, 0, 0, 0, 0, 0, 0, 0, 0));
            var mid, q := ResolveAll(cfg, start, resolved, now).state, Ingest(cfg, s, resolved, firing, cs, now);
            && StampsHold(cfg, q.state) && q.state.clock == s.clock
            && q.stats.refired == |Unstamped(mid, q.state)|
            && (forall i :: 0 <= i < |q.state.incidents| && q.state.incidents[i].clearedAt.Some? ==>
                  i < |mid.incidents| && mid.incidents[i].clearedAt.Some?)
            && (forall n :: |s.signals| <= n < |q.state.signals| && q.state.signals[n].firing ==>
                  && q.state.signals[n].incident < |q.state.incidents|
                  && q.state.incidents[q.state.signals[n].incident].clearedAt.None?)
  {
    DeliveryMarksFiring(cfg, s, resolved, firing, cs, now);
    hide StampsHold, ResolveAll, IngestClusters, Unstamped, OpenFrom, GraphOf;
    var start := Progress(s, [], Stats(|firing|, 0, 0, 0, 0, 0, 0, 0, 0));
    ResolveAllKeepsStamps(cfg, start, resolved, now);
    ResolvedCountNoRefire(cfg, start, resolved, now);
    var p := ResolveAll(cfg, start, resolved, now);
    NothingUnstamped(p.state);
    if |firing| > 0 {
      IngestClustersCount(cfg, GraphOf(s.edges), p.state, p.(open := OpenFrom(cfg, p.state, 0, now)), firing, cs, now);
    }
  }

  // ----- Every run -----

  lemma StepKeepsStamps(cfg: Config, s: State, step: Step)
    requires StampsHold(cfg, s)
    ensures StampsHold(cfg, Next(cfg, s, step))
  {
    hide Ingest, StampsHold, Deliverable;
    if step.Deliver? {
      if Deliverable(s, step) {
        assert step.now <= s.clock by { DeliveredInThePast(s, step); }
        RefiresAreStampsTakenOff(cfg, s, step.resolved, step.firing, step.clusters, step.now);
      }
    } else {
      NoFresherKeeps(cfg, s, Next(cfg, s, step));
    }
  }

  lemma DeliveredInThePast(s: State, step: Step)
    requires step.Deliver? && Deliverable(s, step)
    ensures step.now <= s.clock
  {
  }

  /** In every state a run reaches, an incident stamped as cleared has no firing alert seen within the staleness bound. */
  lemma {:induction false} ClearedMeansNothingFresh(cfg: Config, steps: seq<Step>)
    ensures StampsHold(cfg, Run(cfg, steps))
  {
    if |steps| > 0 {
      hide StampsHold, Next;
      ClearedMeansNothingFresh(cfg, steps[..|steps| - 1]);
      StepKeepsStamps(cfg, Run(cfg, steps[..|steps| - 1]), steps[|steps| - 1]);
    }
  }
}
