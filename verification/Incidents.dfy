/** Alert ingestion: incidents, the alerts attached to them, and the transaction that applies one delivery.

    A delivery holds the ingestion lock, so it is one step on the state. Incidents are numbered in creation order. */
module Incidents {
  import opened Text
  import opened Walks
  import opened Grouping
  import opened Topology
  import opened LeastPaths

  type Time = nat
  type Id = nat

  datatype Config = Config(window: Time, staleAfter: Time)

  datatype Alert = Alert(service: string, name: string, environment: string, fingerprint: string, startsAt: Time)

  datatype Incident = Incident(
    id: Id, service: string, environment: string, key: string, startedAt: Time, closed: bool,
    lastSeen: Time, clearedAt: Option<Time>)

  /** An alert attached to an incident. */
  datatype Attached = Attached(service: string, firing: bool, lastSeen: Time)

  /** One notification kept as evidence on an incident; a firing one carries the root and the dependency path to it. */
  datatype Signal = Signal(incident: Id, alert: Alert, firing: bool, root: string, path: seq<string>)

  datatype State = State(
    clock: Time, edges: seq<Edge>, incidents: seq<Incident>, attached: map<(Id, string), Attached>, signals: seq<Signal>)

  datatype Stats = Stats(
    alertCount: nat, groups: nat, affectedServices: nat, inferredRoots: nat, observedRoots: nat, suppressed: nat,
    resolved: nat, unmatchedResolved: nat, refired: nat)

  // ----- Deduplication keys -----

  function Key(service: string, name: string, environment: string, fingerprint: string): string {
    service + ":" + name + ":" + environment + ":" + fingerprint
  }

  function KeyOf(a: Alert): string { Key(a.service, a.name, a.environment, a.fingerprint) }

  // ----- Queries -----

  /** Most recently seen of the matching incidents among the first n, the lowest id winning a tie. */
  function Latest(s: State, matching: set<Id>, n: nat): (r: Option<Id>)
    requires n <= |s.incidents|
    ensures r.Some? ==> r.value in matching && r.value < n
    ensures r.None? ==> forall i :: i in matching ==> i >= n
  {
    if n == 0 then None
    else
      var best, i := Latest(s, matching, n - 1), n - 1;
      if i in matching && (best.None? || s.incidents[i].lastSeen > s.incidents[best.value].lastSeen) then Some(i) else best
  }

  predicate FreshFiring(cfg: Config, s: State, i: Id, key: string, now: Time) {
    (i, key) in s.attached && s.attached[(i, key)].firing && s.attached[(i, key)].lastSeen + cfg.staleAfter >= now
  }

  predicate StillFiring(cfg: Config, s: State, i: Id, now: Time) {
    exists k :: k in s.attached && k.0 == i && FreshFiring(cfg, s, i, k.1, now)
  }

  /** The alerts still firing on an incident and seen within the staleness bound. */
  function FreshRows(cfg: Config, s: State, i: Id, now: Time): set<(Id, string)> {
    set k | k in s.attached && k.0 == i && FreshFiring(cfg, s, i, k.1, now)
  }

  /** Open, and either still firing or recently seen. */
  predicate Active(cfg: Config, s: State, i: Id, now: Time)
    requires i < |s.incidents|
  {
    && !s.incidents[i].closed
    && (StillFiring(cfg, s, i, now) || s.incidents[i].lastSeen + cfg.window >= now)
  }

  /** Active incidents that carry this alert, as their root key or as an attached alert. */
  function Carrying(cfg: Config, s: State, key: string, now: Time): set<Id> {
    set i | 0 <= i < |s.incidents| && Active(cfg, s, i, now) && (s.incidents[i].key == key || (i, key) in s.attached)
  }

  /** Open incidents on which this alert is firing, whatever their age. */
  function FiringOn(s: State, key: string): set<Id> {
    set i | 0 <= i < |s.incidents| && !s.incidents[i].closed && (i, key) in s.attached && s.attached[(i, key)].firing
  }

  function InsertByStart(x: Incident, xs: seq<Incident>): seq<Incident> {
    if |xs| == 0 || x.startedAt <= xs[0].startedAt then [x] + xs else [xs[0]] + InsertByStart(x, xs[1..])
  }

  /** Active incidents from the n-th on, by start time and then id. */
  function OpenFrom(cfg: Config, s: State, n: nat, now: Time): seq<Incident>
    requires n <= |s.incidents|
    decreases |s.incidents| - n
  {
    if n == |s.incidents| then []
    else
      var rest := OpenFrom(cfg, s, n + 1, now);
      if Active(cfg, s, n, now) then InsertByStart(s.incidents[n], rest) else rest
  }

  // ----- Writes -----

  function WithIncident(s: State, i: Id, x: Incident): State
    requires i < |s.incidents|
  {
    s.(incidents := s.incidents[i := x])
  }

  /** Marks the alert firing and clears the stamp that says every alert has resolved. An alert already attached keeps
      the service it was first attached with. */
  function MarkFiring(s: State, i: Id, a: Alert, now: Time): State
    requires i < |s.incidents|
  {
    var k := (i, KeyOf(a));
    var service := if k in s.attached then s.attached[k].service else a.service;
    var x := s.incidents[i];
    WithIncident(s, i, x.(lastSeen := now, clearedAt := None)).(attached := s.attached[k := Attached(service, true, now)])
  }

  function MarkResolved(s: State, i: Id, key: string, now: Time): State
    requires i < |s.incidents| && (i, key) in s.attached
  {
    var k := (i, key);
    WithIncident(s, i, s.incidents[i].(lastSeen := now))
      .(attached := s.attached[k := s.attached[k].(firing := false, lastSeen := now)])
  }

  function AddSignal(s: State, signal: Signal): State { s.(signals := s.signals + [signal]) }

  // ----- Resolved notifications -----

  /** Applies to the open incident on which the alert is firing, if any; never creates one. */
  function Resolve(cfg: Config, s: State, a: Alert, now: Time): State {
    var found := Latest(s, FiringOn(s, KeyOf(a)), |s.incidents|);
    if found.None? then s
    else
      var i := found.value;
      var resolved := MarkResolved(AddSignal(s, Signal(i, a, false, "", [])), i, KeyOf(a), now);
      if StillFiring(cfg, resolved, i, now) || resolved.incidents[i].clearedAt.Some? then resolved
      else WithIncident(resolved, i, resolved.incidents[i].(clearedAt := Some(now)))
  }

  function CountResolved(stats: Stats, s: State, a: Alert): Stats {
    if Latest(s, FiringOn(s, KeyOf(a)), |s.incidents|).None? then stats.(unmatchedResolved := stats.unmatchedResolved + 1)
    else stats.(resolved := stats.resolved + 1)
  }

  /** Where a delivery stands: the state, its copy of the open incidents, and its counters. */
  datatype Progress = Progress(state: State, open: seq<Incident>, stats: Stats)

  function ResolveAll(cfg: Config, p: Progress, alerts: seq<Alert>, now: Time): Progress {
    if |alerts| == 0 then p
    else
      var n := |alerts| - 1;
      var q := ResolveAll(cfg, p, alerts[..n], now);
      q.(state := Resolve(cfg, q.state, alerts[n], now), stats := CountResolved(q.stats, q.state, alerts[n]))
  }

  // ----- Firing notifications: find, promote or create -----

  /** A group of one environment. */
  datatype Cluster = Cluster(environment: string, group: Group)

  predicate InCluster(a: Alert, c: Cluster) { a.environment == c.environment && a.service in c.group.members }

  function AlertsFor(alerts: seq<Alert>, c: Cluster): seq<Alert> {
    if |alerts| == 0 then []
    else
      var rest, a := AlertsFor(alerts[..|alerts| - 1], c), alerts[|alerts| - 1];
      if InCluster(a, c) then rest + [a] else rest
  }

  const INFERRED_NAME := "TopologyCorrelatedDependencyFailure"

  /** The first alert on the root, or a stand-in for a root nobody alerted on. */
  function RootAlert(alerts: seq<Alert>, root: string): (r: Alert)
    requires |alerts| > 0
    ensures r.service == root
  {
    if alerts[0].service == root then alerts[0]
    else if |alerts| == 1 then alerts[0].(service := root, name := INFERRED_NAME, fingerprint := "topology-" + root)
    else
      var later := RootAlert(alerts[1..], root);
      if later in alerts[1..] then later
      else alerts[0].(service := root, name := INFERRED_NAME, fingerprint := "topology-" + root)
  }

  function RootKey(c: Cluster, root: Alert): string {
    if c.group.inferred then Key(c.group.root, INFERRED_NAME, root.environment, "topology-" + c.group.root) else KeyOf(root)
  }

  /** The closest open incident found so far in either direction. */
  datatype Scan = Scan(same: Option<nat>, up: Option<(nat, nat)>, down: Option<(nat, nat)>)

  ghost function Nearer(g: Deps, from: string, to: string, i: nat, best: Option<(nat, nat)>): Option<(nat, nat)> {
    if Reaches(g, from, to) && (best.None? || Distance(g, from, to) < best.value.1) then Some((i, Distance(g, from, to)))
    else best
  }

  /** The source's loop over the first n open incidents; it stops at an incident rooted at the same service. */
  ghost function ScanOpen(g: Deps, root: string, environment: string, open: seq<Incident>, n: nat): Scan
    requires n <= |open|
  {
    if n == 0 then Scan(None, None, None)
    else
      var before, x := ScanOpen(g, root, environment, open, n - 1), open[n - 1];
      if before.same.Some? || x.environment != environment then before
      else if x.service == root then before.(same := Some(n - 1))
      else before.(up := Nearer(g, root, x.service, n - 1, before.up), down := Nearer(g, x.service, root, n - 1, before.down))
  }

  /** The incident to attach to, and whether its root moves down to the new one. */
  ghost function Related(g: Deps, root: string, environment: string, open: seq<Incident>): Option<(nat, bool)> {
    var scan := ScanOpen(g, root, environment, open, |open|);
    if scan.same.Some? then Some((scan.same.value, false))
    else if scan.up.Some? then Some((scan.up.value.0, false))
    else if scan.down.Some? then Some((scan.down.value.0, true))
    else None
  }

  datatype Placement = Placement(state: State, incident: Id, created: bool, promoted: bool)

  function Promote(s: State, i: Id, c: Cluster, root: Alert): State
    requires i < |s.incidents|
  {
    var x := s.incidents[i];
    WithIncident(s, i, x.(service := c.group.root, key := RootKey(c, root),
                          startedAt := if root.startsAt < x.startedAt then root.startsAt else x.startedAt))
  }

  function CreateFor(s: State, c: Cluster, root: Alert, now: Time): State {
    s.(incidents := s.incidents +
       [Incident(|s.incidents|, c.group.root, c.environment, RootKey(c, root), root.startsAt, false, now, None)])
  }

  ghost function Place(cfg: Config, g: Deps, s: State, open: seq<Incident>, c: Cluster, root: Alert, now: Time): Placement {
    var exact := Latest(s, Carrying(cfg, s, KeyOf(root), now), |s.incidents|);
    if exact.Some? then Placement(s, exact.value, false, false)
    else
      var related := Related(g, c.group.root, c.environment, open);
      if related.Some? && related.value.0 < |open| && open[related.value.0].id < |s.incidents| then
        var i := open[related.value.0].id;
        if !related.value.1 || open[related.value.0].service == c.group.root then Placement(s, i, false, false)
        else Placement(Promote(s, i, c, root), i, false, true)
      else Placement(CreateFor(s, c, root, now), |s.incidents|, true, false)
  }

  // ----- Attaching -----

  /** The least dependency path to the root; a single node where there is none. */
  ghost function PathFor(g: Deps, service: string, root: string): seq<string> {
    if Reaches(g, service, root) then LeastPath(g, service, root) else [service]
  }

  ghost function Attach(g: Deps, s: State, i: Id, a: Alert, now: Time): State
    requires i < |s.incidents|
  {
    var root := s.incidents[i].service;
    MarkFiring(AddSignal(s, Signal(i, a, true, root, PathFor(g, a.service, root))), i, a, now)
  }

  function CountAttached(stats: Stats, x: Incident, a: Alert): Stats {
    stats.(suppressed := stats.suppressed + if a.service != x.service then 1 else 0,
           refired := stats.refired + if x.clearedAt.Some? then 1 else 0)
  }

  ghost function AttachAll(g: Deps, p: Progress, i: Id, alerts: seq<Alert>, now: Time): (r: Progress)
    requires i < |p.state.incidents|
    ensures |r.state.incidents| == |p.state.incidents| && r.open == p.open
  {
    if |alerts| == 0 then p
    else
      var n := |alerts| - 1;
      var q := AttachAll(g, p, i, alerts[..n], now);
      q.(state := Attach(g, q.state, i, alerts[n], now), stats := CountAttached(q.stats, q.state.incidents[i], alerts[n]))
  }

  function AppendOrReplace(items: seq<Incident>, x: Incident): seq<Incident> {
    if |items| == 0 then [x]
    else if items[0].id == x.id then [x] + items[1..]
    else [items[0]] + AppendOrReplace(items[1..], x)
  }

  /** Nothing the incident has seen was on its root. */
  predicate RootUnseen(s: State, i: Id)
    requires i < |s.incidents|
  {
    && (exists n :: 0 <= n < |s.signals| && s.signals[n].incident == i)
    && (forall n :: 0 <= n < |s.signals| && s.signals[n].incident == i ==> s.signals[n].alert.service != s.incidents[i].service)
  }

  function CountGroup(stats: Stats, c: Cluster, inferred: bool): Stats {
    stats.(groups := stats.groups + 1, affectedServices := stats.affectedServices + |c.group.members|,
           inferredRoots := stats.inferredRoots + if inferred then 1 else 0,
           observedRoots := stats.observedRoots + if inferred then 0 else 1)
  }

  ghost function IngestCluster(cfg: Config, g: Deps, p: Progress, alerts: seq<Alert>, c: Cluster, now: Time): Progress {
    var mine := AlertsFor(alerts, c);
    if |mine| == 0 then p
    else
      var placed := Place(cfg, g, p.state, p.open, c, RootAlert(mine, c.group.root), now);
      if placed.incident >= |placed.state.incidents| then p
      else
        var inferred := if placed.created || placed.promoted then c.group.inferred else RootUnseen(p.state, placed.incident);
        var x := placed.state.incidents[placed.incident];
        var q := AttachAll(g, Progress(placed.state, p.open, CountGroup(p.stats, c, inferred)), placed.incident, mine, now);
        q.(open := AppendOrReplace(p.open, x))
  }

  ghost function IngestClusters(cfg: Config, g: Deps, p: Progress, alerts: seq<Alert>, cs: seq<Cluster>, now: Time): Progress {
    if |cs| == 0 then p
    else
      var n := |cs| - 1;
      IngestCluster(cfg, g, IngestClusters(cfg, g, p, alerts, cs[..n], now), alerts, cs[n], now)
  }

  /** One delivery: resolved notifications first, then the firing ones cluster by cluster. */
  ghost function Ingest(cfg: Config, s: State, resolved: seq<Alert>, firing: seq<Alert>, cs: seq<Cluster>, now: Time): Progress {
    var start := Progress(s, [], Stats(|firing|, 0, 0, 0, 0, 0, 0, 0, 0));
    var p := ResolveAll(cfg, start, resolved, now);
    if |firing| == 0 then p
    else IngestClusters(cfg, GraphOf(s.edges), p.(open := OpenFrom(cfg, p.state, 0, now)), firing, cs, now)
  }

  // ----- Clusters -----

  function ServicesIn(alerts: seq<Alert>, environment: string): seq<string> {
    if |alerts| == 0 then []
    else
      var rest, a := ServicesIn(alerts[..|alerts| - 1], environment), alerts[|alerts| - 1];
      if a.environment == environment then rest + [a.service] else rest
  }

  function Environments(alerts: seq<Alert>): set<string> { set a | a in alerts :: a.environment }

  function Clustered(environment: string, groups: seq<Group>): seq<Cluster> {
    seq(|groups|, i requires 0 <= i < |groups| => Cluster(environment, groups[i]))
  }

  /** The groupings of the listed environments, one after the other. */
  ghost predicate ClustersFor(g: Deps, alerts: seq<Alert>, environments: seq<string>, cs: seq<Cluster>) {
    if |environments| == 0 then |cs| == 0
    else
      var n := |environments| - 1;
      exists before: seq<Cluster>, groups: seq<Group> ::
        && cs == before + Clustered(environments[n], groups)
        && IsGrouping(g, ServicesIn(alerts, environments[n]), groups)
        && ClustersFor(g, alerts, environments[..n], before)
  }

  ghost predicate IsClustering(g: Deps, alerts: seq<Alert>, cs: seq<Cluster>) {
    exists environments ::
      StrictlySorted(environments) && Elements(environments) == Environments(alerts) && ClustersFor(g, alerts, environments, cs)
  }

  // ----- Steps -----

  /** A delivery carries the time its transaction started, which may lie behind the clock when it had to wait. */
  datatype Step =
    | AddEdge(edge: Edge)
    | OpenManually(service: string, title: string)
    | Close(id: Id)
    | Tick(to: Time)
    | Deliver(now: Time, resolved: seq<Alert>, firing: seq<Alert>, clusters: seq<Cluster>)

  const INITIAL := State(0, [], [], map[], [])

  function ManualKey(service: string, title: string): string { Key(service, "manual", title, "manual") }

  predicate Labelled(alerts: seq<Alert>) { forall a :: a in alerts ==> a.service != "" }

  /** Labels are normalised before ingestion, so no service name is empty. */
  ghost predicate Deliverable(s: State, step: Step)
    requires step.Deliver?
  {
    && step.now <= s.clock
    && Labelled(step.resolved) && Labelled(step.firing)
    && IsClustering(GraphOf(s.edges), step.firing, step.clusters)
  }

  ghost function Next(cfg: Config, s: State, step: Step): State {
    match step
    case AddEdge(e) => s.(edges := s.edges + [e])
    case OpenManually(service, title) =>
      s.(incidents := s.incidents +
         [Incident(|s.incidents|, service, "local", ManualKey(service, title), s.clock, false, s.clock, None)])
    case Close(i) => if i < |s.incidents| then WithIncident(s, i, s.incidents[i].(closed := true)) else s
    case Tick(to) => if to > s.clock then s.(clock := to) else s
    case Deliver(now, resolved, firing, clusters) =>
      if Deliverable(s, step) then Ingest(cfg, s, resolved, firing, clusters, now).state else s
  }

  /** The state after any sequence of steps. */
  ghost function Run(cfg: Config, steps: seq<Step>): State {
    if |steps| == 0 then INITIAL else Next(cfg, Run(cfg, steps[..|steps| - 1]), steps[|steps| - 1])
  }
}
