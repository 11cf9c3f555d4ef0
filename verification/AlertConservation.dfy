/** Counting one delivery: every alert becomes one signal, and the reported figures agree with what was written. */
module AlertConservation {
  import opened Walks
  import opened Topology
  import opened Incidents
  import opened Clusters
  import opened IncidentPaths

  function AlertsIn(signals: seq<Signal>): seq<Alert> {
    seq(|signals|, n requires 0 <= n < |signals| => signals[n].alert)
  }

  function Off(x: Signal): nat { if x.alert.service != x.root then 1 else 0 }

  /** How many signals come from a service other than the root recorded with them. */
  function OffRoot(signals: seq<Signal>): nat {
    if |signals| == 0 then 0 else OffRoot(signals[..|signals| - 1]) + Off(signals[|signals| - 1])
  }

  lemma {:induction false} JoinOffRoot(a: seq<Signal>, b: seq<Signal>)
    ensures OffRoot(a + b) == OffRoot(a) + OffRoot(b)
  {
    hide Off;
    if |b| == 0 {
      assert a + b == a;
    } else {
      JoinOffRoot(a, b[..|b| - 1]);
      assert (a + b)[..|a + b| - 1] == a + b[..|b| - 1];
    }
  }

  lemma JoinAlerts(a: seq<Signal>, b: seq<Signal>)
    ensures multiset(AlertsIn(a + b)) == multiset(AlertsIn(a)) + multiset(AlertsIn(b))
  {
    assert AlertsIn(a + b) == AlertsIn(a) + AlertsIn(b);
  }

  // ----- Firing alerts -----

  /** The signals written for these alerts, all on one incident and its root. */
  ghost function Written(g: Deps, i: Id, root: string, alerts: seq<Alert>): seq<Signal> {
    seq(|alerts|, n requires 0 <= n < |alerts| => Signal(i, alerts[n], true, root, PathFor(g, alerts[n].service, root)))
  }

  lemma {:induction false} AttachAllWrites(g: Deps, p: Progress, i: Id, alerts: seq<Alert>, now: Time)
    requires i < |p.state.incidents|
    ensures var q, root := AttachAll(g, p, i, alerts, now), p.state.incidents[i].service;
            q.state.incidents[i].service == root && q.state.signals == p.state.signals + Written(g, i, root, alerts)
  {
    hide PathFor;
    if |alerts| > 0 {
      AttachAllWrites(g, p, i, alerts[..|alerts| - 1], now);
      WrittenOneMore(g, i, p.state.incidents[i].service, alerts);
    }
  }

  lemma WrittenOneMore(g: Deps, i: Id, root: string, alerts: seq<Alert>)
    requires |alerts| > 0
    ensures var n := |alerts| - 1;
            Written(g, i, root, alerts) ==
            Written(g, i, root, alerts[..n]) + [Signal(i, alerts[n], true, root, PathFor(g, alerts[n].service, root))]
  {
    hide PathFor;
  }

  lemma {:induction false} AttachAllCounts(g: Deps, p: Progress, i: Id, alerts: seq<Alert>, now: Time)
    requires i < |p.state.incidents|
    ensures var q, root := AttachAll(g, p, i, alerts, now), p.state.incidents[i].service;
            q.stats == p.stats.(suppressed := p.stats.suppressed + OffRoot(Written(g, i, root, alerts)),
                                refired := q.stats.refired)
  {
    hide PathFor, Written, Attach;
    var root := p.state.incidents[i].service;
    if |alerts| == 0 {
      NothingWritten(g, i, root);
    } else {
      var n := |alerts| - 1;
      AttachAllCounts(g, p, i, alerts[..n], now);
      AttachAllWrites(g, p, i, alerts[..n], now);
      WrittenOneMore(g, i, root, alerts);
      var before := Written(g, i, root, alerts[..n]);
      assert Written(g, i, root, alerts)[..|before|] == before;
    }
  }

  lemma NothingWritten(g: Deps, i: Id, root: string)
    ensures Written(g, i, root, []) == []
  {
  }

  /** What one or more clusters added since p: firing signals only, with the figures moved to match. */
  ghost predicate Added(p: Progress, q: Progress, taken: multiset<Alert>, clusters: nat, members: nat) {
    && p.state.signals <= q.state.signals
    && var added := q.state.signals[|p.state.signals|..];
    && (forall n :: 0 <= n < |added| ==> added[n].firing && added[n].incident < |q.state.incidents|)
    && multiset(AlertsIn(added)) == taken
    && q.stats.suppressed == p.stats.suppressed + OffRoot(added)
    && q.stats.groups == p.stats.groups + clusters
    && q.stats.inferredRoots + q.stats.observedRoots == p.stats.inferredRoots + p.stats.observedRoots + clusters
    && q.stats.affectedServices == p.stats.affectedServices + members
    && q.stats.alertCount == p.stats.alertCount && q.stats.resolved == p.stats.resolved
    && q.stats.unmatchedResolved == p.stats.unmatchedResolved
    && |p.state.incidents| <= |q.state.incidents| <= |p.state.incidents| + clusters
  }

  lemma PlacedWithin(cfg: Config, g: Deps, s: State, open: seq<Incident>, c: Cluster, root: Alert, now: Time)
    ensures var placed := Place(cfg, g, s, open, c, root, now);
            && placed.incident < |placed.state.incidents| && placed.state.signals == s.signals
            && |s.incidents| <= |placed.state.incidents| <= |s.incidents| + 1
            && (placed.created || placed.incident < |s.incidents|)
  {
    hide Related;
  }

  /** A group counts as one with an inferred root exactly if nobody alerted on it: nobody in the group, where the incident
      is new or took the group's root on, and otherwise nobody the incident had heard of. */
  lemma GroupRootIsCounted(cfg: Config, g: Deps, p: Progress, alerts: seq<Alert>, c: Cluster, now: Time)
    requires |AlertsFor(alerts, c)| > 0
    ensures var placed := Place(cfg, g, p.state, p.open, c, RootAlert(AlertsFor(alerts, c), c.group.root), now);
            && (placed.created || placed.incident < |p.state.incidents|)
            && var unseen := if placed.created || placed.promoted then c.group.inferred else RootUnseen(p.state, placed.incident);
               var q := IngestCluster(cfg, g, p, alerts, c, now);
               && (unseen ==> q.stats.inferredRoots == p.stats.inferredRoots + 1 && q.stats.observedRoots == p.stats.observedRoots)
               && (!unseen ==> q.stats.observedRoots == p.stats.observedRoots + 1 && q.stats.inferredRoots == p.stats.inferredRoots)
  {
    hide Place, RootUnseen, RootAlert, AppendOrReplace, Written, AlertsFor, AttachAll, OffRoot;
    var mine := AlertsFor(alerts, c);
    var root := RootAlert(mine, c.group.root);
    var placed := Place(cfg, g, p.state, p.open, c, root, now);
    PlacedWithin(cfg, g, p.state, p.open, c, root, now);
    var inferred := if placed.created || placed.promoted then c.group.inferred else RootUnseen(p.state, placed.incident);
    AttachAllCounts(g, Progress(placed.state, p.open, CountGroup(p.stats, c, inferred)), placed.incident, mine, now);
  }

  lemma IngestClusterAdds(cfg: Config, g: Deps, p: Progress, alerts: seq<Alert>, c: Cluster, now: Time)
    requires |AlertsFor(alerts, c)| > 0
    ensures Added(p, IngestCluster(cfg, g, p, alerts, c, now), multiset(AlertsFor(alerts, c)), 1, |c.group.members|)
  {
    hide Place, RootUnseen, RootAlert, AppendOrReplace, Written, AlertsFor, AttachAll, AlertsIn, OffRoot;
    var mine := AlertsFor(alerts, c);
    var root := RootAlert(mine, c.group.root);
    var placed := Place(cfg, g, p.state, p.open, c, root, now);
    PlacedWithin(cfg, g, p.state, p.open, c, root, now);
    var i := placed.incident;
    var inferred := if placed.created || placed.promoted then c.group.inferred else RootUnseen(p.state, i);
    var start := Progress(placed.state, p.open, CountGroup(p.stats, c, inferred));
    AttachAllWrites(g, start, i, mine, now);
    AttachAllCounts(g, start, i, mine, now);
    var written := Written(g, i, placed.state.incidents[i].service, mine);
    WrittenFiring(g, i, placed.state.incidents[i].service, mine);
    var q := IngestCluster(cfg, g, p, alerts, c, now);
    assert q.state.signals == p.state.signals + written;
    assert q.state.signals[|p.state.signals|..] == written;
  }

  lemma WrittenFiring(g: Deps, i: Id, root: string, alerts: seq<Alert>)
    ensures forall n :: 0 <= n < |Written(g, i, root, alerts)| ==>
              Written(g, i, root, alerts)[n].firing && Written(g, i, root, alerts)[n].incident == i
    ensures AlertsIn(Written(g, i, root, alerts)) == alerts
  {
  }

  lemma AddedTwice(p: Progress, q: Progress, r: Progress, a: multiset<Alert>, b: multiset<Alert>, m: nat, k: nat, x: nat)
    requires Added(p, q, a, m, k) && Added(q, r, b, 1, x)
    ensures Added(p, r, a + b, m + 1, k + x)
  {
    var u, v := q.state.signals[|p.state.signals|..], r.state.signals[|q.state.signals|..];
    assert r.state.signals[|p.state.signals|..] == u + v;
    JoinAlerts(u, v);
    JoinOffRoot(u, v);
    forall n | 0 <= n < |u + v| ensures (u + v)[n].firing && (u + v)[n].incident < |r.state.incidents| {
      assert if n < |u| then (u + v)[n] == u[n] else (u + v)[n] == v[n - |u|];
    }
  }

  lemma LastCluster(cfg: Config, g: Deps, p: Progress, alerts: seq<Alert>, cs: seq<Cluster>, now: Time)
    requires |cs| > 0
    ensures var n := |cs| - 1;
            && IngestClusters(cfg, g, p, alerts, cs, now) ==
               IngestCluster(cfg, g, IngestClusters(cfg, g, p, alerts, cs[..n], now), alerts, cs[n], now)
            && Taken(alerts, cs) == Taken(alerts, cs[..n]) + multiset(AlertsFor(alerts, cs[n]))
            && MemberCount(cs) == MemberCount(cs[..n]) + |cs[n].group.members|
  {
    hide IngestCluster, AlertsFor;
  }

  lemma {:induction false} IngestClustersAdd(cfg: Config, g: Deps, p: Progress, alerts: seq<Alert>, cs: seq<Cluster>, now: Time)
    requires forall n :: 0 <= n < |cs| ==> |AlertsFor(alerts, cs[n])| > 0
    ensures Added(p, IngestClusters(cfg, g, p, alerts, cs, now), Taken(alerts, cs), |cs|, MemberCount(cs))
  {
    hide Added, IngestCluster, IngestClusters, AlertsFor, Taken, MemberCount;
    if |cs| == 0 {
      NothingAdded(p);
      NoClusters(cfg, g, p, alerts, cs, now);
    } else {
      var n := |cs| - 1;
      var q := IngestClusters(cfg, g, p, alerts, cs[..n], now);
      IngestClustersAdd(cfg, g, p, alerts, cs[..n], now);
      IngestClusterAdds(cfg, g, q, alerts, cs[n], now);
      LastCluster(cfg, g, p, alerts, cs, now);
      AddedTwice(p, q, IngestCluster(cfg, g, q, alerts, cs[n], now), Taken(alerts, cs[..n]), multiset(AlertsFor(alerts, cs[n])),
                 n, MemberCount(cs[..n]), |cs[n].group.members|);
    }
  }

  lemma NoClusters(cfg: Config, g: Deps, p: Progress, alerts: seq<Alert>, cs: seq<Cluster>, now: Time)
    requires |cs| == 0
    ensures IngestClusters(cfg, g, p, alerts, cs, now) == p && Taken(alerts, cs) == multiset{} && MemberCount(cs) == 0
  {
  }

  lemma NothingAdded(p: Progress)
    ensures Added(p, p, multiset{}, 0, 0)
  {
    assert p.state.signals[|p.state.signals|..] == [];
  }

  // ----- Resolved notifications -----

  /** What resolved notifications added since p: as many signals as were matched, none firing, and no incident. */
  ghost predicate Matched(p: Progress, q: Progress, notifications: nat) {
    && p.state.signals <= q.state.signals
    && (forall n :: |p.state.signals| <= n < |q.state.signals| ==> !q.state.signals[n].firing)
    && |q.state.signals| - |p.state.signals| == q.stats.resolved - p.stats.resolved
    && q.stats.resolved + q.stats.unmatchedResolved == p.stats.resolved + p.stats.unmatchedResolved + notifications
    && q.stats == p.stats.(resolved := q.stats.resolved, unmatchedResolved := q.stats.unmatchedResolved)
    && |q.state.incidents| == |p.state.incidents|
  }

  lemma {:induction false} ResolveAllMatches(cfg: Config, p: Progress, alerts: seq<Alert>, now: Time)
    ensures Matched(p, ResolveAll(cfg, p, alerts, now), |alerts|)
  {
    hide StillFiring, FiringOn;
    if |alerts| > 0 { ResolveAllMatches(cfg, p, alerts[..|alerts| - 1], now); }
  }

  // ----- The whole delivery -----

  lemma EveryClusterTakes(g: Deps, alerts: seq<Alert>, cs: seq<Cluster>, n: nat)
    requires Splits(g, alerts, Environments(alerts), cs) && n < |cs|
    ensures |AlertsFor(alerts, cs[n])| > 0
  {
    var c := cs[n];
    assert Fits(g, alerts, c);
    var m := c.group.members[0];
    assert m in Elements(c.group.members);
    ServicesInHas(alerts, c.environment, m);
    var a :| a in alerts && a.environment == c.environment && a.service == m;
    AlertsForHas(alerts, c);
    assert a in AlertsFor(alerts, c);
  }

  lemma ClustersTakeAll(g: Deps, alerts: seq<Alert>, cs: seq<Cluster>)
    requires IsClustering(g, alerts, cs) && forall a :: a in alerts ==> a.service != ""
    ensures Taken(alerts, cs) == multiset(alerts) && MemberCount(cs) == |Pairs(alerts)|
    ensures forall n :: 0 <= n < |cs| ==> |AlertsFor(alerts, cs[n])| > 0
  {
    hide IsClustering, Fits;
    ClusteringSplits(g, alerts, cs);
    MembersArePairs(g, alerts, cs);
    TakenIsAll(alerts, cs);
    forall n | 0 <= n < |cs| ensures |AlertsFor(alerts, cs[n])| > 0 { EveryClusterTakes(g, alerts, cs, n); }
  }

  /** A delivery writes one signal per matched resolved notification and then one per firing alert, each alert as
      often as it was delivered. Suppressed alerts are those off their root. Every group has either an observed or an
      inferred root, the affected services are the distinct (environment, service) pairs, every resolved notification
      is counted once, and only groups of firing alerts open incidents. */
  lemma DeliveryConserves(cfg: Config, s: State, resolved: seq<Alert>, firing: seq<Alert>, cs: seq<Cluster>, now: Time)
    returns (mid: nat)
    requires IsClustering(GraphOf(s.edges), firing, cs) && forall a :: a in firing ==> a.service != ""
    ensures var q := Ingest(cfg, s, resolved, firing, cs, now);
            && |s.signals| <= mid <= |q.state.signals| && s.signals <= q.state.signals
            && mid - |s.signals| == q.stats.resolved && q.stats.resolved + q.stats.unmatchedResolved == |resolved|
            && (forall n :: |s.signals| <= n < mid ==> !q.state.signals[n].firing)
            && (forall n :: mid <= n < |q.state.signals| ==>
                  q.state.signals[n].firing && q.state.signals[n].incident < |q.state.incidents|)
            && multiset(AlertsIn(q.state.signals[mid..])) == multiset(firing)
            && q.stats.alertCount == |firing| == |q.state.signals| - mid
            && q.stats.suppressed == OffRoot(q.state.signals[mid..])
            && q.stats.observedRoots + q.stats.inferredRoots == q.stats.groups == |cs|
            && q.stats.affectedServices == |Pairs(firing)|
            && |s.incidents| <= |q.state.incidents| <= |s.incidents| + |cs|
  {
    hide IsClustering, ResolveAll, IngestClusters, GraphOf, Taken, MemberCount, AlertsFor, OpenFrom;
    var start := Progress(s, [], Stats(|firing|, 0, 0, 0, 0, 0, 0, 0, 0));
    ResolveAllMatches(cfg, start, resolved, now);
    var p := ResolveAll(cfg, start, resolved, now);
    mid := |p.state.signals|;
    ClustersTakeAll(GraphOf(s.edges), firing, cs);
    if |firing| == 0 {
      NoFiring(GraphOf(s.edges), firing, cs);
      assert p.state.signals[mid..] == [];
    } else {
      var p' := p.(open := OpenFrom(cfg, p.state, 0, now));
      IngestClustersAdd(cfg, GraphOf(s.edges), p', firing, cs, now);
      var added := IngestClusters(cfg, GraphOf(s.edges), p', firing, cs, now).state.signals[mid..];
      assert |multiset(AlertsIn(added))| == |multiset(firing)|;
    }
  }

  lemma NoFiring(g: Deps, alerts: seq<Alert>, cs: seq<Cluster>)
    requires IsClustering(g, alerts, cs) && |alerts| == 0
    ensures cs == [] && Pairs(alerts) == {}
  {
    hide IsClustering;
    ClusteringSplits(g, alerts, cs);
    if |cs| > 0 { EveryClusterTakes(g, alerts, cs, 0); }
  }
}
