/** Nothing reaches an incident once it is closed. */
module ClosedIncidents {
  import opened Walks
  import opened Topology
  import opened Incidents

  /** The incident, the alerts attached to it and the signals kept on it are what they were. */
  predicate Untouched(s: State, t: State, i: Id) {
    && i < |s.incidents| <= |t.incidents| && t.incidents[i] == s.incidents[i]
    && (forall k :: k in s.attached && k.0 == i ==> k in t.attached && t.attached[k] == s.attached[k])
    && (forall k :: k in t.attached && k.0 == i ==> k in s.attached)
    && s.signals <= t.signals && (forall n :: |s.signals| <= n < |t.signals| ==> t.signals[n].incident != i)
  }

  lemma SelfUntouched(s: State, i: Id)
    requires i < |s.incidents|
    ensures Untouched(s, s, i)
  {
  }

  lemma UntouchedTwice(s: State, t: State, u: State, i: Id)
    requires Untouched(s, t, i) && Untouched(t, u, i)
    ensures Untouched(s, u, i)
  {
    assert forall n :: 0 <= n < |t.signals| ==> u.signals[n] == t.signals[n];
  }

  lemma ResolveLeavesClosed(cfg: Config, s: State, a: Alert, now: Time, i: Id)
    requires i < |s.incidents| && s.incidents[i].closed
    ensures Untouched(s, Resolve(cfg, s, a, now), i)
  {
    hide KeyOf, StillFiring;
  }

  lemma {:induction false} ResolveAllLeavesClosed(cfg: Config, p: Progress, alerts: seq<Alert>, now: Time, i: Id)
    requires i < |p.state.incidents| && p.state.incidents[i].closed
    ensures Untouched(p.state, ResolveAll(cfg, p, alerts, now).state, i)
    ensures |ResolveAll(cfg, p, alerts, now).state.incidents| == |p.state.incidents|
  {
    hide Resolve, Untouched;
    if |alerts| == 0 {
      SelfUntouched(p.state, i);
    } else {
      var n := |alerts| - 1;
      var q := ResolveAll(cfg, p, alerts[..n], now);
      ResolveAllLeavesClosed(cfg, p, alerts[..n], now, i);
      StillClosed(p.state, q.state, i);
      ResolveLeavesClosed(cfg, q.state, alerts[n], now, i);
      ResolveSameIncidents(cfg, q.state, alerts[n], now);
      UntouchedTwice(p.state, q.state, ResolveAll(cfg, p, alerts, now).state, i);
    }
  }

  lemma ResolveSameIncidents(cfg: Config, s: State, a: Alert, now: Time)
    ensures |Resolve(cfg, s, a, now).incidents| == |s.incidents|
  {
    hide KeyOf, StillFiring;
  }

  lemma StillClosed(s: State, t: State, i: Id)
    requires Untouched(s, t, i) && s.incidents[i].closed
    ensures i < |t.incidents| && t.incidents[i].closed
  {
  }

  /** The delivery's copy of the open incidents has none that is closed. */
  predicate NoneClosed(s: State, open: seq<Incident>) {
    forall x :: x in open ==> x.id < |s.incidents| && !s.incidents[x.id].closed
  }

  lemma {:induction false} OpenIsNotClosed(cfg: Config, s: State, n: nat, now: Time)
    requires n <= |s.incidents| && forall i :: 0 <= i < |s.incidents| ==> s.incidents[i].id == i
    ensures NoneClosed(s, OpenFrom(cfg, s, n, now))
    decreases |s.incidents| - n
  {
    hide StillFiring;
    if n < |s.incidents| {
      OpenIsNotClosed(cfg, s, n + 1, now);
      InsertMembers(s.incidents[n], OpenFrom(cfg, s, n + 1, now));
    }
  }

  lemma {:induction false} InsertMembers(x: Incident, xs: seq<Incident>)
    ensures forall y :: y in InsertByStart(x, xs) ==> y == x || y in xs
  {
    if |xs| > 0 {
      InsertMembers(x, xs[1..]);
      assert xs == [xs[0]] + xs[1..];
    }
  }

  lemma PlaceLeavesClosed(cfg: Config, g: Deps, s: State, open: seq<Incident>, c: Cluster, root: Alert, now: Time, i: Id)
    requires NoneClosed(s, open) && i < |s.incidents| && s.incidents[i].closed
    ensures var placed := Place(cfg, g, s, open, c, root, now);
            && Untouched(s, placed.state, i) && placed.incident != i && placed.incident < |placed.state.incidents|
            && !placed.state.incidents[placed.incident].closed && (placed.created || placed.incident < |s.incidents|)
  {
    hide Related, StillFiring, KeyOf, RootKey;
    var exact := Latest(s, Carrying(cfg, s, KeyOf(root), now), |s.incidents|);
    var related := Related(g, c.group.root, c.environment, open);
    if exact.None? && related.Some? && related.value.0 < |open| { assert open[related.value.0] in open; }
  }

  lemma {:induction false} AttachAllLeaves(g: Deps, p: Progress, j: Id, alerts: seq<Alert>, now: Time, i: Id)
    requires j < |p.state.incidents| && i < |p.state.incidents| && i != j
    ensures Untouched(p.state, AttachAll(g, p, j, alerts, now).state, i)
  {
    hide Attach, Untouched;
    if |alerts| == 0 {
      SelfUntouched(p.state, i);
    } else {
      var n := |alerts| - 1;
      AttachAllLeaves(g, p, j, alerts[..n], now, i);
      var before := AttachAll(g, p, j, alerts[..n], now).state;
      AttachLeaves(g, before, j, alerts[n], now, i);
      UntouchedTwice(p.state, before, Attach(g, before, j, alerts[n], now), i);
    }
  }

  lemma AttachLeaves(g: Deps, s: State, j: Id, a: Alert, now: Time, i: Id)
    requires j < |s.incidents| && i < |s.incidents| && i != j
    ensures Untouched(s, Attach(g, s, j, a, now), i)
  {
    hide PathFor, KeyOf;
  }

  lemma {:induction false} ReplaceMembers(items: seq<Incident>, x: Incident)
    ensures forall y :: y in AppendOrReplace(items, x) ==> y == x || y in items
  {
    if |items| > 0 {
      ReplaceMembers(items[1..], x);
      assert items == [items[0]] + items[1..];
    }
  }

  ghost predicate Going(p: Progress) {
    NoneClosed(p.state, p.open) && forall i :: 0 <= i < |p.state.incidents| ==> p.state.incidents[i].id == i
  }

  lemma ClusterLeavesClosed(cfg: Config, g: Deps, p: Progress, alerts: seq<Alert>, c: Cluster, now: Time, i: Id)
    requires Going(p) && i < |p.state.incidents| && p.state.incidents[i].closed
    ensures var q := IngestCluster(cfg, g, p, alerts, c, now);
            Untouched(p.state, q.state, i) && Going(q)
  {
    hide Place, AttachAll, AlertsFor, RootAlert, AppendOrReplace, RootUnseen, Untouched;
    var mine := AlertsFor(alerts, c);
    if |mine| == 0 {
      SelfUntouched(p.state, i);
    } else {
      var root := RootAlert(mine, c.group.root);
      var placed := Place(cfg, g, p.state, p.open, c, root, now);
      PlaceLeavesClosed(cfg, g, p.state, p.open, c, root, now, i);
      PlaceKeepsIds(cfg, g, p.state, p.open, c, root, now);
      var j := placed.incident;
      var inferred := if placed.created || placed.promoted then c.group.inferred else RootUnseen(p.state, j);
      var start := Progress(placed.state, p.open, CountGroup(p.stats, c, inferred));
      AttachAllLeaves(g, start, j, mine, now, i);
      AttachKeepsIds(g, start, j, mine, now);
      UntouchedTwice(p.state, placed.state, AttachAll(g, start, j, mine, now).state, i);
      ReplaceMembers(p.open, placed.state.incidents[j]);
    }
  }

  lemma PlaceKeepsIds(cfg: Config, g: Deps, s: State, open: seq<Incident>, c: Cluster, root: Alert, now: Time)
    requires forall i :: 0 <= i < |s.incidents| ==> s.incidents[i].id == i
    ensures var t := Place(cfg, g, s, open, c, root, now).state;
            && |s.incidents| <= |t.incidents| && (forall i :: 0 <= i < |t.incidents| ==> t.incidents[i].id == i)
            && forall i :: 0 <= i < |s.incidents| ==> t.incidents[i].closed == s.incidents[i].closed
  {
    hide Related, Carrying, KeyOf, RootKey;
  }

  lemma {:induction false} AttachKeepsIds(g: Deps, p: Progress, j: Id, alerts: seq<Alert>, now: Time)
    requires j < |p.state.incidents| && forall i :: 0 <= i < |p.state.incidents| ==> p.state.incidents[i].id == i
    ensures var t := AttachAll(g, p, j, alerts, now).state;
            && (forall i :: 0 <= i < |t.incidents| ==> t.incidents[i].id == i)
            && forall i :: 0 <= i < |t.incidents| ==> t.incidents[i].closed == p.state.incidents[i].closed
  {
    hide PathFor, KeyOf;
    if |alerts| > 0 { AttachKeepsIds(g, p, j, alerts[..|alerts| - 1], now); }
  }

  lemma {:induction false} ClustersLeaveClosed(
    cfg: Config, g: Deps, p: Progress, alerts: seq<Alert>, cs: seq<Cluster>, now: Time, i: Id)
    requires Going(p) && i < |p.state.incidents| && p.state.incidents[i].closed
    ensures var q := IngestClusters(cfg, g, p, alerts, cs, now);
            Untouched(p.state, q.state, i) && Going(q)
  {
    hide IngestCluster, Going, Untouched;
    if |cs| == 0 {
      SelfUntouched(p.state, i);
    } else {
      var n := |cs| - 1;
      var q := IngestClusters(cfg, g, p, alerts, cs[..n], now);
      ClustersLeaveClosed(cfg, g, p, alerts, cs[..n], now, i);
      StillClosed(p.state, q.state, i);
      ClusterLeavesClosed(cfg, g, q, alerts, cs[n], now, i);
      UntouchedTwice(p.state, q.state, IngestClusters(cfg, g, p, alerts, cs, now).state, i);
    }
  }

  ghost predicate Numbered(s: State) { forall i :: 0 <= i < |s.incidents| ==> s.incidents[i].id == i }

  lemma {:induction false} ResolveAllNumbered(cfg: Config, p: Progress, alerts: seq<Alert>, now: Time)
    requires Numbered(p.state)
    ensures Numbered(ResolveAll(cfg, p, alerts, now).state)
  {
    hide KeyOf, StillFiring;
    if |alerts| > 0 { ResolveAllNumbered(cfg, p, alerts[..|alerts| - 1], now); }
  }

  lemma {:induction false} ClustersNumbered(cfg: Config, g: Deps, p: Progress, alerts: seq<Alert>, cs: seq<Cluster>, now: Time)
    requires Numbered(p.state)
    ensures Numbered(IngestClusters(cfg, g, p, alerts, cs, now).state)
  {
    hide Place, AttachAll, AlertsFor, RootAlert, AppendOrReplace, RootUnseen;
    if |cs| > 0 {
      var n := |cs| - 1;
      var q := IngestClusters(cfg, g, p, alerts, cs[..n], now);
      ClustersNumbered(cfg, g, p, alerts, cs[..n], now);
      var mine := AlertsFor(alerts, cs[n]);
      if |mine| > 0 {
        var root := RootAlert(mine, cs[n].group.root);
        PlaceKeepsIds(cfg, g, q.state, q.open, cs[n], root, now);
        var placed := Place(cfg, g, q.state, q.open, cs[n], root, now);
        if placed.incident < |placed.state.incidents| {
          PlaceInside(cfg, g, q.state, q.open, cs[n], root, now);
          var inferred := if placed.created || placed.promoted then cs[n].group.inferred else RootUnseen(q.state, placed.incident);
          AttachKeepsIds(g, Progress(placed.state, q.open, CountGroup(q.stats, cs[n], inferred)), placed.incident, mine, now);
        }
      }
    }
  }

  lemma PlaceInside(cfg: Config, g: Deps, s: State, open: seq<Incident>, c: Cluster, root: Alert, now: Time)
    ensures var placed := Place(cfg, g, s, open, c, root, now); placed.created || placed.incident < |s.incidents|
  {
    hide Related, Carrying, KeyOf, RootKey;
  }

  lemma StepNumbered(cfg: Config, s: State, step: Step)
    requires Numbered(s)
    ensures Numbered(Next(cfg, s, step))
  {
    hide ResolveAll, IngestClusters, OpenFrom, GraphOf, IsClustering;
    if step.Deliver? {
      var start := Progress(s, [], Stats(|step.firing|, 0, 0, 0, 0, 0, 0, 0, 0));
      ResolveAllNumbered(cfg, start, step.resolved, step.now);
      var p := ResolveAll(cfg, start, step.resolved, step.now);
      ClustersNumbered(cfg, GraphOf(s.edges), p.(open := OpenFrom(cfg, p.state, 0, step.now)), step.firing, step.clusters, step.now);
    }
  }

  lemma {:induction false} RunNumbered(cfg: Config, steps: seq<Step>)
    ensures Numbered(Run(cfg, steps))
  {
    hide Next;
    if |steps| > 0 {
      RunNumbered(cfg, steps[..|steps| - 1]);
      StepNumbered(cfg, Run(cfg, steps[..|steps| - 1]), steps[|steps| - 1]);
    }
  }

  lemma StepLeavesClosed(cfg: Config, s: State, step: Step, i: Id)
    requires Numbered(s) && i < |s.incidents| && s.incidents[i].closed
    ensures Untouched(s, Next(cfg, s, step), i)
  {
    hide ResolveAll, IngestClusters, OpenFrom, GraphOf, IsClustering;
    SelfUntouched(s, i);
    if step.Deliver? && Deliverable(s, step) { DeliveryLeavesClosed(cfg, s, step, i); }
  }

  lemma DeliveryLeavesClosed(cfg: Config, s: State, step: Step, i: Id)
    requires Numbered(s) && i < |s.incidents| && s.incidents[i].closed && step.Deliver?
    ensures Untouched(s, Ingest(cfg, s, step.resolved, step.firing, step.clusters, step.now).state, i)
  {
    hide ResolveAll, IngestClusters, OpenFrom, GraphOf, Untouched;
    var start := Progress(s, [], Stats(|step.firing|, 0, 0, 0, 0, 0, 0, 0, 0));
    var p := ResolveAll(cfg, start, step.resolved, step.now);
    ResolveAllLeavesClosed(cfg, start, step.resolved, step.now, i);
    StillClosed(s, p.state, i);
    if |step.firing| > 0 {
      ResolveAllNumbered(cfg, start, step.resolved, step.now);
      OpenIsNotClosed(cfg, p.state, 0, step.now);
      var q := p.(open := OpenFrom(cfg, p.state, 0, step.now));
      ClustersLeaveClosed(cfg, GraphOf(s.edges), q, step.firing, step.clusters, step.now, i);
      UntouchedTwice(s, p.state, IngestClusters(cfg, GraphOf(s.edges), q, step.firing, step.clusters, step.now).state, i);
    }
  }

  /** From the step that closes it on, an incident stays as it is in every run: no delivery moves its root, attaches an
      alert to it, resolves one on it or keeps a signal there. */
  lemma {:induction false} ClosedIncidentsStay(cfg: Config, steps: seq<Step>, m: nat, i: Id)
    requires m < |steps| && steps[m] == Close(i) && i < |Run(cfg, steps[..m]).incidents|
    ensures Untouched(Run(cfg, steps[..m + 1]), Run(cfg, steps), i) && Run(cfg, steps[..m + 1]).incidents[i].closed
    ensures Run(cfg, steps[..m + 1]).signals == Run(cfg, steps[..m]).signals
  {
    hide Next, Untouched;
    var n := |steps| - 1;
    assert steps[..m + 1][..m] == steps[..m];
    CloseCloses(cfg, Run(cfg, steps[..m]), i);
    if n == m {
      assert steps[..m + 1] == steps;
      SelfUntouched(Run(cfg, steps), i);
    } else {
      assert steps[..n][..m] == steps[..m] && steps[..n][..m + 1] == steps[..m + 1];
      ClosedIncidentsStay(cfg, steps[..n], m, i);
      StillClosed(Run(cfg, steps[..m + 1]), Run(cfg, steps[..n]), i);
      RunNumbered(cfg, steps[..n]);
      StepLeavesClosed(cfg, Run(cfg, steps[..n]), steps[n], i);
      UntouchedTwice(Run(cfg, steps[..m + 1]), Run(cfg, steps[..n]), Run(cfg, steps), i);
    }
  }

  lemma CloseCloses(cfg: Config, s: State, i: Id)
    requires i < |s.incidents|
    ensures var t := Next(cfg, s, Close(i)); |t.incidents| == |s.incidents| && t.incidents[i].closed && t.signals == s.signals
  {
  }
}
