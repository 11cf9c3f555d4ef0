/** The incident tables and the ingestion service that updates them in place, step by step. */
module IncidentStore {
  import opened Text
  import opened Walks
  import opened LeastPaths
  import opened Grouping
  import opened Topology
  import opened Incidents
  import opened RelatedIncidents
  import opened ResolvedAlerts
  import opened Placements

  // ----- Searching with the graph -----

  lemma NamedReach(g: Deps, a: string, b: string)
    requires WellFormed(g) && Reaches(g, a, b) && a != b
    ensures a != "" && b != ""
  {
    var p :| Connects(g, a, b, p);
    assert p[0 + 1] in Adjacent(g, p[0]);
    WalkEndsNamed(g, p);
  }

  /** A search for two different services that found what it found. */
  method Search(graph: Graph, from: string, to: string) returns (path: Option<seq<string>>)
    requires WellFormed(graph.dependencies) && from != to
    ensures path.Some? <==> Reaches(graph.dependencies, from, to)
    ensures path.Some? ==> path.value == LeastPath(graph.dependencies, from, to)
    ensures path.Some? ==> |path.value| == Distance(graph.dependencies, from, to) + 1
  {
    path := graph.Path(from, to);
    if Reaches(graph.dependencies, from, to) {
      NamedReach(graph.dependencies, from, to);
      LeastPathIsLeast(graph.dependencies, from, to);
      LeastUnique(graph.dependencies, from, to, path.value, LeastPath(graph.dependencies, from, to));
      LeastHasDistance(graph.dependencies, from, to, path.value);
    }
  }

  function Best(at: Option<nat>, length: nat): Option<(nat, nat)> {
    match at case None => None case Some(i) => if length > 0 then Some((i, length - 1)) else None
  }

  /** Keeps the shorter of the best path so far and the one found between two services. */
  method KeepShorter(graph: Graph, from: string, to: string, i: nat, at: Option<nat>, length: nat)
    returns (at': Option<nat>, length': nat)
    requires WellFormed(graph.dependencies) && from != to && (at.Some? ==> length > 0)
    ensures Best(at', length') == Nearer(graph.dependencies, from, to, i, Best(at, length)) && (at'.Some? ==> length' > 0)
  {
    at', length' := at, length;
    var path := Search(graph, from, to);
    if path.Some? && (at.None? || |path.value| < length) { at', length' := Some(i), |path.value|; }
  }

  /** The open incident nearest to a group's root, and whether its root has to move. */
  method RelatedOpenIncident(graph: Graph, root: string, environment: string, open: seq<Incident>)
    returns (r: Option<(nat, bool)>)
    requires WellFormed(graph.dependencies)
    ensures r == Related(graph.dependencies, root, environment, open)
    ensures Chosen(graph.dependencies, root, environment, open, r)
  {
    ghost var g := graph.dependencies;
    RelatedIsNearest(g, root, environment, open);
    hide Chosen, Reaches, Distance, WellFormed, Nearer;
    var up: Option<nat>, down: Option<nat> := None, None;
    var upLength: nat, downLength: nat := 0, 0;
    for i := 0 to |open|
      invariant ScanOpen(g, root, environment, open, i) == Scan(None, Best(up, upLength), Best(down, downLength))
      invariant (up.Some? ==> upLength > 0) && (down.Some? ==> downLength > 0)
    {
      var x := open[i];
      if x.environment == environment {
        if x.service == root {
          SameEndsScan(g, root, environment, open, i, |open|);
          return Some((i, false));
        }
        up, upLength := KeepShorter(graph, root, x.service, i, up, upLength);
        down, downLength := KeepShorter(graph, x.service, root, i, down, downLength);
      }
    }
    if up.Some? { return Some((up.value, false)); }
    if down.Some? { return Some((down.value, true)); }
    r := None;
  }

  lemma {:induction false} SameEndsScan(g: Deps, root: string, environment: string, open: seq<Incident>, i: nat, n: nat)
    requires i < n <= |open| && open[i].environment == environment && open[i].service == root
    requires ScanOpen(g, root, environment, open, i).same.None?
    ensures ScanOpen(g, root, environment, open, n).same == Some(i)
  {
    if n > i + 1 { SameEndsScan(g, root, environment, open, i, n - 1); }
  }

  // ----- Loops over the alerts of a delivery -----

  method AlertsForGroup(alerts: seq<Alert>, c: Cluster) returns (items: seq<Alert>)
    ensures items == AlertsFor(alerts, c)
  {
    items := [];
    for i := 0 to |alerts|
      invariant items == AlertsFor(alerts[..i], c)
    {
      assert alerts[..i + 1][..i] == alerts[..i];
      if alerts[i].environment == c.environment {
        if alerts[i].service in c.group.members { items := items + [alerts[i]]; }
      }
    }
    assert alerts[..|alerts|] == alerts;
  }

  /** The first alert on the root, or the stand-in when no alert is on it. */
  method RootAlertForGroup(alerts: seq<Alert>, root: string) returns (r: Alert)
    requires |alerts| > 0
    ensures r == RootAlert(alerts, root)
  {
    for i := 0 to |alerts|
      invariant forall j :: 0 <= j < i ==> alerts[j].service != root
    {
      if alerts[i].service == root {
        RootAlertFound(alerts, root, i);
        return alerts[i];
      }
    }
    RootAlertMissing(alerts, root);
    r := alerts[0].(service := root, name := INFERRED_NAME, fingerprint := "topology-" + root);
  }

  method AppendOrReplaceIncident(items: seq<Incident>, x: Incident) returns (r: seq<Incident>)
    ensures r == AppendOrReplace(items, x)
    ensures (forall i :: 0 <= i < |items| ==> items[i].id != x.id) ==> r == items + [x]
    ensures forall i :: 0 <= i < |items| && items[i].id == x.id && (forall j :: 0 <= j < i ==> items[j].id != x.id) ==>
              r == items[i := x]
  {
    for i := 0 to |items|
      invariant forall j :: 0 <= j < i ==> items[j].id != x.id
    {
      if items[i].id == x.id {
        ReplacesAt(items, x, i);
        return items[i := x];
      }
    }
    AppendsAtEnd(items, x);
    r := items + [x];
  }

  lemma {:induction false} ReplacesAt(items: seq<Incident>, x: Incident, i: nat)
    requires i < |items| && items[i].id == x.id && forall j :: 0 <= j < i ==> items[j].id != x.id
    ensures AppendOrReplace(items, x) == items[i := x]
  {
    if i > 0 { ReplacesAt(items[1..], x, i - 1); }
  }

  lemma {:induction false} AppendsAtEnd(items: seq<Incident>, x: Incident)
    requires forall j :: 0 <= j < |items| ==> items[j].id != x.id
    ensures AppendOrReplace(items, x) == items + [x]
  {
    if |items| > 0 { AppendsAtEnd(items[1..], x); }
  }

  /** Services by environment, environments in order, and the groups of each. */
  method TopologyGroupsByEnvironment(graph: Graph, alerts: seq<Alert>) returns (cs: seq<Cluster>)
    requires WellFormed(graph.dependencies)
    ensures IsClustering(graph.dependencies, alerts, cs)
  {
    var services := ServicesByEnvironment(alerts);
    var environments := SortedKeys(services.Keys);
    cs := [];
    hide IsGrouping, WellFormed;
    for i := 0 to |environments|
      invariant ClustersFor(graph.dependencies, alerts, environments[..i], cs)
    {
      var environment := environments[i];
      assert environment in Elements(environments);
      var groups := graph.Groups(services[environment]);
      var before := cs;
      cs := before + Clustered(environment, groups);
      assert environments[..i + 1][..i] == environments[..i];
      MoreClusters(graph.dependencies, alerts, environments[..i + 1], before, groups);
    }
    assert environments[..|environments|] == environments;
  }

  lemma MoreClusters(g: Deps, alerts: seq<Alert>, environments: seq<string>, before: seq<Cluster>, groups: seq<Group>)
    requires |environments| > 0
    requires ClustersFor(g, alerts, environments[..|environments| - 1], before)
    requires IsGrouping(g, ServicesIn(alerts, environments[|environments| - 1]), groups)
    ensures ClustersFor(g, alerts, environments, before + Clustered(environments[|environments| - 1], groups))
  {
    hide IsGrouping;
  }

  method ServicesByEnvironment(alerts: seq<Alert>) returns (services: map<string, seq<string>>)
    ensures services.Keys == Environments(alerts)
    ensures forall e :: e in services ==> services[e] == ServicesIn(alerts, e)
  {
    services := map[];
    for i := 0 to |alerts|
      invariant services.Keys == Environments(alerts[..i])
      invariant forall e :: e in services ==> services[e] == ServicesIn(alerts[..i], e)
    {
      var a := alerts[i];
      assert alerts[..i + 1] == alerts[..i] + [a];
      if a.environment !in services { NoServices(alerts[..i], a.environment); }
      services := services[a.environment := (if a.environment in services then services[a.environment] else []) + [a.service]];
    }
    assert alerts[..|alerts|] == alerts;
  }

  lemma {:induction false} NoServices(alerts: seq<Alert>, environment: string)
    requires environment !in Environments(alerts)
    ensures ServicesIn(alerts, environment) == []
  {
    if |alerts| > 0 {
      assert alerts[|alerts| - 1] in alerts;
      NoServices(alerts[..|alerts| - 1], environment);
    }
  }

  lemma {:induction false} RootAlertMissing(alerts: seq<Alert>, root: string)
    requires |alerts| > 0 && forall j :: 0 <= j < |alerts| ==> alerts[j].service != root
    ensures RootAlert(alerts, root) == alerts[0].(service := root, name := INFERRED_NAME, fingerprint := "topology-" + root)
  {
    if |alerts| > 1 {
      RootAlertMissing(alerts[1..], root);
      assert RootAlert(alerts[1..], root).service == root;
    }
  }

  lemma {:induction false} RootAlertFound(alerts: seq<Alert>, root: string, i: nat)
    requires i < |alerts| && alerts[i].service == root && forall j :: 0 <= j < i ==> alerts[j].service != root
    ensures RootAlert(alerts, root) == alerts[i]
  {
    if i > 0 { RootAlertFound(alerts[1..], root, i - 1); }
  }

  // ----- The tables -----

  predicate IdsValid(open: seq<Incident>, n: nat) { forall x :: x in open ==> x.id < n }

  class Store {
    const cfg: Config
    var clock: Time
    var edges: seq<Edge>
    var incidents: seq<Incident>
    var attached: map<(Id, string), Attached>
    var signals: seq<Signal>

    constructor (cfg: Config)
      ensures this.cfg == cfg && Value() == INITIAL
    {
      this.cfg := cfg;
      clock, edges, incidents, attached, signals := 0, [], [], map[], [];
    }

    function Value(): State
      reads this
    {
      State(clock, edges, incidents, attached, signals)
    }

    predicate Valid()
      reads this
    {
      forall i :: 0 <= i < |incidents| ==> incidents[i].id == i
    }

    // Single statements.

    method InsertSignal(x: Signal)
      modifies this`signals
      ensures Value() == AddSignal(old(Value()), x)
    {
      signals := signals + [x];
    }

    /** Reports whether every alert of the incident had cleared. */
    method MarkAlertFiring(i: Id, a: Alert, now: Time) returns (refired: bool)
      requires i < |incidents|
      modifies this`attached, this`incidents
      ensures Value() == MarkFiring(old(Value()), i, a, now)
      ensures incidents == old(incidents)[i := old(incidents)[i].(lastSeen := now, clearedAt := None)]
      ensures attached == old(attached)[(i, KeyOf(a)) :=
                Attached(if (i, KeyOf(a)) in old(attached) then old(attached)[(i, KeyOf(a))].service else a.service, true, now)]
      ensures refired <==> old(incidents)[i].clearedAt.Some?
    {
      var k := (i, KeyOf(a));
      if k in attached {
        attached := attached[k := attached[k].(firing := true, lastSeen := now)];
      } else {
        attached := attached[k := Attached(a.service, true, now)];
      }
      refired := incidents[i].clearedAt.Some?;
      incidents := incidents[i := incidents[i].(lastSeen := now, clearedAt := None)];
    }

    /** Reports how many fresh alerts are still firing on the incident. */
    method MarkAlertResolved(i: Id, key: string, now: Time) returns (remaining: nat)
      requires i < |incidents| && (i, key) in attached
      modifies this`attached, this`incidents
      ensures Value() == MarkResolved(old(Value()), i, key, now)
      ensures remaining == |FreshRows(cfg, Value(), i, now)|
    {
      var k := (i, key);
      attached := attached[k := attached[k].(firing := false, lastSeen := now)];
      incidents := incidents[i := incidents[i].(lastSeen := now)];
      remaining := |FreshRows(cfg, Value(), i, now)|;
    }

    method MarkAlertsCleared(i: Id, now: Time)
      requires i < |incidents|
      modifies this`incidents
      ensures old(incidents)[i].clearedAt.Some? ==> Value() == old(Value())
      ensures old(incidents)[i].clearedAt.None? ==>
                Value() == WithIncident(old(Value()), i, old(incidents)[i].(clearedAt := Some(now)))
    {
      if incidents[i].clearedAt.None? { incidents := incidents[i := incidents[i].(clearedAt := Some(now))]; }
    }

    method PromoteIncidentRoot(i: Id, c: Cluster, root: Alert)
      requires i < |incidents|
      modifies this`incidents
      ensures Value() == Promote(old(Value()), i, c, root)
    {
      var x := incidents[i];
      x := x.(service := c.group.root, key := RootKey(c, root));
      if root.startsAt < x.startedAt { x := x.(startedAt := root.startsAt); }
      incidents := incidents[i := x];
    }

    /** Whether the incident has alerts, none of them on its root. */
    method RootInferred(i: Id) returns (inferred: bool)
      requires i < |incidents|
      ensures inferred == RootUnseen(Value(), i)
    {
      var alertCount, rootObserved := 0, false;
      for n := 0 to |signals|
        invariant alertCount > 0 <==> exists m :: 0 <= m < n && signals[m].incident == i
        invariant rootObserved <==>
                  exists m :: 0 <= m < n && signals[m].incident == i && signals[m].alert.service == incidents[i].service
      {
        if signals[n].incident == i {
          alertCount := alertCount + 1;
          if signals[n].alert.service == incidents[i].service { rootObserved := true; }
        }
      }
      inferred := alertCount > 0 && !rootObserved;
    }

    // The service.

    method ResolveAlert(a: Alert, now: Time, stats: Stats) returns (stats': Stats)
      requires Valid()
      modifies this
      ensures Valid() && edges == old(edges)
      ensures Value() == Resolve(cfg, old(Value()), a, now) && stats' == CountResolved(stats, old(Value()), a)
      ensures (forall i :: 0 <= i < old(|incidents|) ==> !FiresOn(old(Value()), i, KeyOf(a))) ==>
                Value() == old(Value()) && stats' == stats.(unmatchedResolved := stats.unmatchedResolved + 1)
      ensures forall i :: 0 <= i < old(|incidents|) && GoesTo(old(Value()), KeyOf(a), i) ==>
                Resolves(cfg, old(Value()), a, now, i, Value()) && stats' == stats.(resolved := stats.resolved + 1)
    {
      hide KeyOf, GoesTo, Resolves, FiresOn;
      ghost var s := Value();
      NothingFound(s, KeyOf(a));
      forall i: Id | GoesTo(s, KeyOf(a), i) ensures Resolves(cfg, s, a, now, i, Resolve(cfg, s, a, now)) {
        ResolvedStampsTheLast(cfg, s, a, now, i);
      }
      forall i: Id ensures GoesTo(s, KeyOf(a), i) <==> Latest(s, FiringOn(s, KeyOf(a)), |s.incidents|) == Some(i) {
        FoundIs(s, KeyOf(a), i);
      }
      var found := Latest(Value(), FiringOn(Value(), KeyOf(a)), |incidents|);
      if found.None? { return stats.(unmatchedResolved := stats.unmatchedResolved + 1); }
      InsertSignal(Signal(found.value, a, false, "", []));
      var remaining := MarkAlertResolved(found.value, KeyOf(a), now);
      stats' := stats.(resolved := stats.resolved + 1);
      SomeFresh(cfg, Value(), found.value, now);
      if remaining == 0 { MarkAlertsCleared(found.value, now); }
    }

    method FindOrCreateTopologyIncident(graph: Graph, c: Cluster, root: Alert, open: seq<Incident>, now: Time)
      returns (i: Id, created: bool, promoted: bool)
      requires Valid() && WellFormed(graph.dependencies) && IdsValid(open, |incidents|)
      modifies this
      ensures Valid() && edges == old(edges) && clock == old(clock)
      ensures Placement(Value(), i, created, promoted) == Place(cfg, graph.dependencies, old(Value()), open, c, root, now)
      ensures PlacedAs(cfg, graph.dependencies, old(Value()), open, c, root, now, Placement(Value(), i, created, promoted))
      ensures i < |incidents| && |incidents| >= old(|incidents|) && (created || i < old(|incidents|))
    {
      hide Chosen, WellFormed, Related, PlacedAs;
      PlacedExactly(cfg, graph.dependencies, Value(), open, c, root, now);
      var exact := Latest(Value(), Carrying(cfg, Value(), KeyOf(root), now), |incidents|);
      if exact.Some? { return exact.value, false, false; }
      var related := RelatedOpenIncident(graph, c.group.root, c.environment, open);
      if related.Some? {
        assert related.value.0 < |open| by { ChosenWithin(graph.dependencies, c.group.root, c.environment, open, related); }
        var existing := open[related.value.0];
        if !related.value.1 || existing.service == c.group.root { return existing.id, false, false; }
        PromoteIncidentRoot(existing.id, c, root);
        return existing.id, false, true;
      }
      i, created, promoted := |incidents|, true, false;
      incidents := incidents + [Incident(i, c.group.root, c.environment, RootKey(c, root), root.startsAt, false, now, None)];
    }

    method AttachTopologyAlert(graph: Graph, i: Id, a: Alert, now: Time, stats: Stats) returns (stats': Stats)
      requires Valid() && WellFormed(graph.dependencies) && i < |incidents|
      modifies this
      ensures Valid() && |incidents| == old(|incidents|) && edges == old(edges)
      ensures Value() == Attach(graph.dependencies, old(Value()), i, a, now)
      ensures stats' == CountAttached(stats, old(incidents)[i], a)
    {
      var root := incidents[i].service;
      var services := [a.service];
      if a.service == root {
        OwnPath(graph.dependencies, root);
      } else {
        var path := Search(graph, a.service, root);
        if path.Some? { services := path.value; }
      }
      InsertSignal(Signal(i, a, true, root, services));
      var refired := MarkAlertFiring(i, a, now);
      stats' := stats.(refired := stats.refired + if refired then 1 else 0);
      if a.service != root { stats' := stats'.(suppressed := stats'.suppressed + 1); }
    }

    method AttachAlerts(graph: Graph, i: Id, alerts: seq<Alert>, open: seq<Incident>, now: Time, stats: Stats)
      returns (stats': Stats)
      requires Valid() && WellFormed(graph.dependencies) && i < |incidents|
      modifies this
      ensures Valid() && |incidents| == old(|incidents|)
      ensures Progress(Value(), open, stats') ==
              AttachAll(graph.dependencies, Progress(old(Value()), open, stats), i, alerts, now)
    {
      hide WellFormed, Attach;
      ghost var p := Progress(Value(), open, stats);
      stats' := stats;
      for n := 0 to |alerts|
        invariant Valid() && |incidents| == old(|incidents|)
        invariant Progress(Value(), open, stats') == AttachAll(graph.dependencies, p, i, alerts[..n], now)
      {
        assert alerts[..n + 1][..n] == alerts[..n];
        stats' := AttachTopologyAlert(graph, i, alerts[n], now, stats');
      }
      assert alerts[..|alerts|] == alerts;
    }

    method IngestGroup(graph: Graph, alerts: seq<Alert>, c: Cluster, open: seq<Incident>, now: Time, stats: Stats)
      returns (open': seq<Incident>, stats': Stats)
      requires Valid() && WellFormed(graph.dependencies) && IdsValid(open, |incidents|)
      modifies this
      ensures Valid() && IdsValid(open', |incidents|)
      ensures Progress(Value(), open', stats') ==
              IngestCluster(cfg, graph.dependencies, Progress(old(Value()), open, stats), alerts, c, now)
    {
      hide WellFormed, Place, AttachAll, RootAlert, AlertsFor, AppendOrReplace, RootUnseen;
      var mine := AlertsForGroup(alerts, c);
      if |mine| == 0 { return open, stats; }
      var root := RootAlertForGroup(mine, c.group.root);
      ghost var s := Value();
      var i, created, promoted := FindOrCreateTopologyIncident(graph, c, root, open, now);
      var inferred := c.group.inferred;
      if !created && !promoted {
        UnmovedPlace(cfg, graph.dependencies, s, open, c, root, now);
        inferred := RootInferred(i);
      }
      var x := incidents[i];
      stats' := CountGroup(stats, c, inferred);
      stats' := AttachAlerts(graph, i, mine, open, now, stats');
      open' := AppendOrReplaceIncident(open, x);
      ReplaceKeepsIds(open, x, |incidents|);
    }

    method ResolveAlerts(alerts: seq<Alert>, now: Time, stats: Stats) returns (stats': Stats)
      requires Valid()
      modifies this
      ensures Valid() && edges == old(edges)
      ensures Progress(Value(), [], stats') == ResolveAll(cfg, Progress(old(Value()), [], stats), alerts, now)
    {
      hide Resolve, CountResolved;
      ghost var p := Progress(Value(), [], stats);
      stats' := stats;
      for n := 0 to |alerts|
        invariant Valid() && edges == old(edges)
        invariant Progress(Value(), [], stats') == ResolveAll(cfg, p, alerts[..n], now)
      {
        assert alerts[..n + 1][..n] == alerts[..n];
        stats' := ResolveAlert(alerts[n], now, stats');
      }
      assert alerts[..|alerts|] == alerts;
    }

    method IngestGroups(graph: Graph, alerts: seq<Alert>, groups: seq<Cluster>, open: seq<Incident>, now: Time, stats: Stats)
      returns (open': seq<Incident>, stats': Stats)
      requires Valid() && WellFormed(graph.dependencies) && IdsValid(open, |incidents|)
      modifies this
      ensures Valid()
      ensures Progress(Value(), open', stats') ==
              IngestClusters(cfg, graph.dependencies, Progress(old(Value()), open, stats), alerts, groups, now)
    {
      hide WellFormed, IngestCluster;
      ghost var p := Progress(Value(), open, stats);
      open', stats' := open, stats;
      for n := 0 to |groups|
        invariant Valid() && IdsValid(open', |incidents|)
        invariant Progress(Value(), open', stats') == IngestClusters(cfg, graph.dependencies, p, alerts, groups[..n], now)
      {
        assert groups[..n + 1][..n] == groups[..n];
        open', stats' := IngestGroup(graph, alerts, groups[n], open', now, stats');
      }
      assert groups[..|groups|] == groups;
    }

    /** One delivery: resolved notifications, then the firing alerts by topology group. */
    method IngestAlertmanager(resolved: seq<Alert>, firing: seq<Alert>, now: Time)
      returns (stats: Stats, ghost groups: seq<Cluster>)
      requires Valid()
      modifies this
      ensures Valid() && IsClustering(GraphOf(old(edges)), firing, groups)
      ensures var done := Ingest(cfg, old(Value()), resolved, firing, groups, now);
              Value() == done.state && stats == done.stats
      ensures now <= old(clock) && Labelled(resolved) && Labelled(firing) ==>
                Value() == Next(cfg, old(Value()), Deliver(now, resolved, firing, groups))
    {
      hide WellFormed, IsClustering, ResolveAll, IngestClusters, GraphOf, OpenFrom;
      stats := ResolveAlerts(resolved, now, Stats(|firing|, 0, 0, 0, 0, 0, 0, 0, 0));
      if |firing| == 0 {
        groups := [];
        NothingToCluster(GraphOf(edges), firing);
        return;
      }
      var graph := new Graph(edges);
      var clusters := TopologyGroupsByEnvironment(graph, firing);
      groups := clusters;
      var open := OpenFrom(cfg, Value(), 0, now);
      OpenIds(cfg, Value(), 0, now);
      var open', stats' := IngestGroups(graph, firing, clusters, open, now, stats);
      stats := stats';
    }
  }

  lemma SomeFresh(cfg: Config, s: State, i: Id, now: Time)
    ensures StillFiring(cfg, s, i, now) <==> |FreshRows(cfg, s, i, now)| > 0
  {
    if StillFiring(cfg, s, i, now) {
      var k :| k in s.attached && k.0 == i && FreshFiring(cfg, s, i, k.1, now);
      assert k in FreshRows(cfg, s, i, now);
    }
    if |FreshRows(cfg, s, i, now)| > 0 {
      var k :| k in FreshRows(cfg, s, i, now);
    }
  }

  lemma NothingToCluster(g: Deps, alerts: seq<Alert>)
    requires |alerts| == 0
    ensures IsClustering(g, alerts, [])
  {
    var none: seq<string> := [];
    assert Elements(none) == Environments(alerts);
    assert ClustersFor(g, alerts, none, []);
  }

  lemma {:induction false} OpenIds(cfg: Config, s: State, n: nat, now: Time)
    requires n <= |s.incidents| && forall i :: 0 <= i < |s.incidents| ==> s.incidents[i].id == i
    ensures IdsValid(OpenFrom(cfg, s, n, now), |s.incidents|)
    decreases |s.incidents| - n
  {
    if n < |s.incidents| {
      OpenIds(cfg, s, n + 1, now);
      InsertIds(s.incidents[n], OpenFrom(cfg, s, n + 1, now), |s.incidents|);
    }
  }

  lemma {:induction false} InsertIds(x: Incident, xs: seq<Incident>, n: nat)
    requires IdsValid(xs, n) && x.id < n
    ensures IdsValid(InsertByStart(x, xs), n)
  {
    if |xs| > 0 && x.startedAt > xs[0].startedAt {
      InsertIds(x, xs[1..], n);
      assert xs[0] in xs;
    }
  }

  lemma OwnPath(g: Deps, root: string)
    requires WellFormed(g)
    ensures PathFor(g, root, root) == [root]
  {
    ReachesSelf(g, root);
    DistanceToSelf(g, root, root);
    LeastPathIsLeast(g, root, root);
    LeastHasDistance(g, root, root, LeastPath(g, root, root));
  }

  lemma ChosenWithin(g: Deps, root: string, environment: string, open: seq<Incident>, r: Option<(nat, bool)>)
    requires Chosen(g, root, environment, open, r) && r.Some?
    ensures r.value.0 < |open|
  {
  }

  lemma UnmovedPlace(cfg: Config, g: Deps, s: State, open: seq<Incident>, c: Cluster, root: Alert, now: Time)
    ensures var placed := Place(cfg, g, s, open, c, root, now);
            !placed.created && !placed.promoted ==> placed.state == s
  {
    hide Related, Carrying;
  }

  lemma {:induction false} ReplaceKeepsIds(items: seq<Incident>, x: Incident, n: nat)
    requires IdsValid(items, n) && x.id < n
    ensures IdsValid(AppendOrReplace(items, x), n)
  {
    if |items| > 0 && items[0].id != x.id {
      ReplaceKeepsIds(items[1..], x, n);
      assert items[0] in items;
    }
  }
}
