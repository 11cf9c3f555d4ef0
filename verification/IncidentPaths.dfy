/** In every reachable ingestion state, whatever is attached to an incident depends on the incident's root.

    A deduplication key joins its parts with colons, and incidents are found again by key. The claim therefore needs
    service names no two of which can own one key; CollidingNames shows that it fails for any two that can. */
module IncidentPaths {
  import opened Text
  import opened Walks
  import opened Grouping
  import opened Topology
  import opened LeastPaths
  import opened Incidents
  import opened Clusters

  // ----- Keys -----

  predicate Heads(service: string, key: string) { service + ":" <= key }

  /** The key could have been built for this service. Alerts name a service, so an unnamed one has manual keys only. */
  predicate Owns(service: string, key: string) { Heads(service, key) && (service == "" ==> ":manual:" <= key) }

  /** The second name is the first followed by a colon, and an unnamed first has a manual key starting that way. */
  predicate Collide(s: string, t: string) { Heads(s, t) && (s == "" ==> ":manual:" <= t + ":") }

  predicate Separable(names: set<string>) {
    forall s, t :: s in names && t in names ==> !Collide(s, t)
  }

  lemma KeyHeaded(service: string, name: string, environment: string, fingerprint: string)
    ensures Heads(service, Key(service, name, environment, fingerprint))
  {
    assert Key(service, name, environment, fingerprint) == service + ":" + (name + ":" + environment + ":" + fingerprint);
  }

  lemma ManualKeyOwned(service: string, title: string)
    ensures Owns(service, ManualKey(service, title))
  {
    KeyHeaded(service, "manual", title, "manual");
    if service == "" { assert ManualKey(service, title) == ":manual:" + (title + ":manual"); }
  }

  /** Two alerts on different services can have the same key exactly when one service name is the other followed by
      a colon and more. */
  lemma KeysSeparateServices(s: string, t: string)
    requires s != t
    ensures (exists n, e, f, n', e', f' :: Key(s, n, e, f) == Key(t, n', e', f')) <==> Heads(s, t) || Heads(t, s)
  {
    if n, e, f, n', e', f' :| Key(s, n, e, f) == Key(t, n', e', f') {
      KeyHeaded(s, n, e, f);
      KeyHeaded(t, n', e', f');
      OwnersNest(s, t, Key(s, n, e, f));
    }
    if Heads(s, t) { CollidingKeys(s, t); }
    if Heads(t, s) { CollidingKeys(t, s); }
  }

  lemma OwnersNest(s: string, t: string, key: string)
    requires Heads(s, key) && Heads(t, key) && s != t
    ensures Heads(s, t) || Heads(t, s)
  {
    var a, b := s + ":", t + ":";
    assert forall i :: 0 <= i < |a| ==> a[i] == key[i];
    assert forall i :: 0 <= i < |b| ==> b[i] == key[i];
    assert s == key[..|s|] && t == key[..|t|];
    if |s| < |t| { assert a == t[..|a|]; }
    else if |t| < |s| { assert b == s[..|b|]; }
  }

  lemma CollidingKeys(s: string, t: string)
    requires Heads(s, t)
    ensures Key(s, t[|s| + 1..] + ":x", "y", "z") == Key(t, "x", "y", "z")
  {
    assert t == s + ":" + t[|s| + 1..];
  }

  lemma OneOwner(names: set<string>, s: string, t: string, key: string)
    requires Separable(names) && s in names && t in names && Owns(s, key) && Owns(t, key)
    ensures s == t
  {
    if s != t {
      OwnersNest(s, t, key);
      if Heads(s, t) { NestedOwnersCollide(s, t, key); } else { NestedOwnersCollide(t, s, key); }
    }
  }

  lemma NestedOwnersCollide(s: string, t: string, key: string)
    requires Owns(s, key) && Owns(t, key) && Heads(s, t)
    ensures Collide(s, t)
  {
    if s == "" {
      var manual, own := ":manual:", t + ":";
      assert forall i :: 0 <= i < |own| ==> own[i] == key[i];
      assert forall i :: 0 <= i < |manual| ==> manual[i] == key[i];
      assert 1 <= |t| && own[|t|] == ':' && forall i :: 1 <= i < 7 ==> manual[i] != ':';
      assert manual == own[..|manual|];
    }
  }

  // ----- The invariant -----

  predicate IncidentHolds(names: set<string>, s: State, i: Id)
    requires i < |s.incidents|
  {
    s.incidents[i].id == i && s.incidents[i].service in names && Owns(s.incidents[i].service, s.incidents[i].key)
  }

  ghost predicate RowHolds(names: set<string>, g: Deps, s: State, k: (Id, string))
    requires k in s.attached
  {
    && k.0 < |s.incidents| && s.attached[k].service in names && Owns(s.attached[k].service, k.1)
    && Reaches(g, s.attached[k].service, s.incidents[k.0].service)
  }

  /** The recorded path is a real dependency path to the recorded root, and the current root is that or lies beyond. */
  ghost predicate SignalHolds(g: Deps, s: State, x: Signal) {
    && x.incident < |s.incidents| && Reaches(g, x.alert.service, s.incidents[x.incident].service)
    && (x.firing ==> Connects(g, x.alert.service, x.root, x.path) && Reaches(g, x.root, s.incidents[x.incident].service))
  }

  ghost predicate Holds(names: set<string>, g: Deps, s: State) {
    && (forall i :: 0 <= i < |s.incidents| ==> IncidentHolds(names, s, i))
    && (forall k :: k in s.attached ==> RowHolds(names, g, s, k))
    && (forall n :: 0 <= n < |s.signals| ==> SignalHolds(g, s, s.signals[n]))
  }

  predicate EdgeNames(names: set<string>, e: Edge) { e.service in names && e.dependsOn in names }

  /** The step mentions no other service. */
  predicate StepNames(names: set<string>, step: Step) {
    match step
    case AddEdge(e) => EdgeNames(names, e)
    case OpenManually(service, _) => service in names
    case Deliver(_, resolved, firing, _) =>
      (forall a :: a in resolved ==> a.service in names) && (forall a :: a in firing ==> a.service in names)
    case _ => true
  }

  /** Alerts as they are after normalisation: none is without a service. */
  predicate AlertNames(names: set<string>, alerts: seq<Alert>) {
    forall a :: a in alerts ==> a.service in names && a.service != ""
  }

  predicate EdgesNames(names: set<string>, edges: seq<Edge>) { forall e :: e in edges ==> EdgeNames(names, e) }

  // ----- More edges, same reachability -----

  lemma MoreEdgesSameWalks(edges: seq<Edge>, e: Edge, p: seq<string>)
    requires IsWalk(GraphOf(edges), p)
    ensures IsWalk(GraphOf(edges + [e]), p)
  {
    var g, h := GraphOf(edges), GraphOf(edges + [e]);
    GraphMatchesEdges(edges);
    GraphMatchesEdges(edges + [e]);
    forall i | 0 <= i < |p| - 1 ensures p[i + 1] in Adjacent(h, p[i]) {
      OneMoreEdge(edges, e, p[i]);
      assert p[i + 1] in Elements(Adjacent(g, p[i]));
      assert p[i + 1] in Elements(Adjacent(h, p[i]));
    }
  }

  lemma MoreEdgesSameReach(edges: seq<Edge>, e: Edge, a: string, b: string)
    requires Reaches(GraphOf(edges), a, b)
    ensures Reaches(GraphOf(edges + [e]), a, b)
  {
    var p :| Connects(GraphOf(edges), a, b, p);
    MoreEdgesSameWalks(edges, e, p);
    assert Connects(GraphOf(edges + [e]), a, b, p);
  }

  lemma AddEdgeKeeps(names: set<string>, s: State, e: Edge)
    requires Holds(names, GraphOf(s.edges), s)
    ensures Holds(names, GraphOf(s.edges + [e]), s.(edges := s.edges + [e]))
  {
    var s' := s.(edges := s.edges + [e]);
    var g := GraphOf(s'.edges);
    forall k | k in s.attached ensures RowHolds(names, g, s', k) {
      assert RowHolds(names, GraphOf(s.edges), s, k);
      MoreEdgesSameReach(s.edges, e, s.attached[k].service, s.incidents[k.0].service);
    }
    forall n | 0 <= n < |s.signals| ensures SignalHolds(g, s', s.signals[n]) { SignalAfterEdge(s, s.signals[n], e); }
    forall i | 0 <= i < |s.incidents| ensures IncidentHolds(names, s', i) { assert IncidentHolds(names, s, i); }
  }

  lemma SignalAfterEdge(s: State, x: Signal, e: Edge)
    requires SignalHolds(GraphOf(s.edges), s, x)
    ensures SignalHolds(GraphOf(s.edges + [e]), s.(edges := s.edges + [e]), x)
  {
    var root := s.incidents[x.incident].service;
    MoreEdgesSameReach(s.edges, e, x.alert.service, root);
    if x.firing {
      MoreEdgesSameWalks(s.edges, e, x.path);
      MoreEdgesSameReach(s.edges, e, Last(x.path), root);
    }
  }

  // ----- Incident rows change, roots only move further down -----

  /** Same incidents in the same order; every root is reachable from the one before. */
  ghost predicate RootsMove(g: Deps, s: State, s': State) {
    && |s.incidents| <= |s'.incidents| && s'.attached == s.attached && s'.signals == s.signals
    && forall i :: 0 <= i < |s.incidents| ==> Reaches(g, s.incidents[i].service, s'.incidents[i].service)
  }

  lemma RootsMoveKeeps(names: set<string>, g: Deps, s: State, s': State)
    requires Holds(names, g, s) && RootsMove(g, s, s') && forall i :: 0 <= i < |s'.incidents| ==> IncidentHolds(names, s', i)
    ensures Holds(names, g, s')
  {
    forall k | k in s.attached ensures RowHolds(names, g, s', k) {
      assert RowHolds(names, g, s, k);
      ReachesTransitive(g, s.attached[k].service, s.incidents[k.0].service, s'.incidents[k.0].service);
    }
    forall n | 0 <= n < |s.signals| ensures SignalHolds(g, s', s.signals[n]) {
      var x := s.signals[n];
      assert SignalHolds(g, s, x);
      var a, b := s.incidents[x.incident].service, s'.incidents[x.incident].service;
      ReachesTransitive(g, x.alert.service, a, b);
      if x.firing { ReachesTransitive(g, Last(x.path), a, b); }
    }
  }

  lemma ChangeIncident(names: set<string>, g: Deps, s: State, i: Id, x: Incident)
    requires Holds(names, g, s) && i < |s.incidents| && x.id == i && x.service in names && Owns(x.service, x.key)
    requires Reaches(g, s.incidents[i].service, x.service)
    ensures Holds(names, g, WithIncident(s, i, x))
  {
    var s' := WithIncident(s, i, x);
    forall j | 0 <= j < |s.incidents| ensures Reaches(g, s.incidents[j].service, s'.incidents[j].service) {
      if j != i { ReachesSelf(g, s.incidents[j].service); }
    }
    forall j | 0 <= j < |s'.incidents| ensures IncidentHolds(names, s', j) { assert IncidentHolds(names, s, j); }
    RootsMoveKeeps(names, g, s, s');
  }

  lemma AddIncident(names: set<string>, g: Deps, s: State, x: Incident)
    requires Holds(names, g, s) && x.id == |s.incidents| && x.service in names && Owns(x.service, x.key)
    ensures Holds(names, g, s.(incidents := s.incidents + [x]))
  {
    var s' := s.(incidents := s.incidents + [x]);
    forall j | 0 <= j < |s.incidents| ensures Reaches(g, s.incidents[j].service, s'.incidents[j].service) {
      ReachesSelf(g, s.incidents[j].service);
    }
    forall j | 0 <= j < |s'.incidents| ensures IncidentHolds(names, s', j) {
      if j < |s.incidents| { assert IncidentHolds(names, s, j); }
    }
    RootsMoveKeeps(names, g, s, s');
  }

  // ----- Rows and signals -----

  lemma AddRow(names: set<string>, g: Deps, s: State, k: (Id, string), row: Attached)
    requires Holds(names, g, s) && k.0 < |s.incidents| && row.service in names && Owns(row.service, k.1)
    requires Reaches(g, row.service, s.incidents[k.0].service)
    ensures Holds(names, g, s.(attached := s.attached[k := row]))
  {
    var s' := s.(attached := s.attached[k := row]);
    forall j | j in s'.attached ensures RowHolds(names, g, s', j) {
      if j != k { assert RowHolds(names, g, s, j); }
    }
    forall n | 0 <= n < |s.signals| ensures SignalHolds(g, s', s.signals[n]) { assert SignalHolds(g, s, s.signals[n]); }
    forall i | 0 <= i < |s.incidents| ensures IncidentHolds(names, s', i) { assert IncidentHolds(names, s, i); }
  }

  lemma AddSignalKeeps(names: set<string>, g: Deps, s: State, x: Signal)
    requires Holds(names, g, s) && SignalHolds(g, s, x)
    ensures Holds(names, g, AddSignal(s, x))
  {
    var s' := AddSignal(s, x);
    forall j | j in s'.attached ensures RowHolds(names, g, s', j) { assert RowHolds(names, g, s, j); }
    forall n | 0 <= n < |s'.signals| ensures SignalHolds(g, s', s'.signals[n]) {
      if n < |s.signals| { assert SignalHolds(g, s, s.signals[n]); }
    }
    forall i | 0 <= i < |s.incidents| ensures IncidentHolds(names, s', i) { assert IncidentHolds(names, s, i); }
  }

  // ----- Resolved notifications -----

  lemma ResolveKeeps(names: set<string>, cfg: Config, g: Deps, s: State, a: Alert, now: Time)
    requires Separable(names) && Holds(names, g, s) && a.service in names && a.service != ""
    ensures Holds(names, g, Resolve(cfg, s, a, now))
    ensures |Resolve(cfg, s, a, now).incidents| == |s.incidents| && Resolve(cfg, s, a, now).edges == s.edges
  {
    hide Holds, Reaches;
    var found := Latest(s, FiringOn(s, KeyOf(a)), |s.incidents|);
    if found.Some? {
      var i, k := found.value, (found.value, KeyOf(a));
      RowFacts(names, g, s, k);
      KeyHeaded(a.service, a.name, a.environment, a.fingerprint);
      OneOwner(names, a.service, s.attached[k].service, KeyOf(a));
      var t := AddSignal(s, Signal(i, a, false, "", []));
      AddSignalKeeps(names, g, s, Signal(i, a, false, "", []));
      TouchKeeps(names, g, t, i, t.incidents[i].(lastSeen := now));
      var u := WithIncident(t, i, t.incidents[i].(lastSeen := now));
      AddRow(names, g, u, k, u.attached[k].(firing := false, lastSeen := now));
      var v := MarkResolved(t, i, KeyOf(a), now);
      TouchKeeps(names, g, v, i, v.incidents[i].(clearedAt := Some(now)));
    }
  }

  lemma RowFacts(names: set<string>, g: Deps, s: State, k: (Id, string))
    requires Holds(names, g, s) && k in s.attached
    ensures RowHolds(names, g, s, k)
  {
  }

  /** Changes that leave an incident's identity, root and key alone. */
  lemma TouchKeeps(names: set<string>, g: Deps, s: State, i: Id, x: Incident)
    requires Holds(names, g, s) && i < |s.incidents|
    requires x.id == s.incidents[i].id && x.service == s.incidents[i].service && x.key == s.incidents[i].key
    ensures Holds(names, g, WithIncident(s, i, x))
  {
    assert IncidentHolds(names, s, i);
    ReachesSelf(g, x.service);
    ChangeIncident(names, g, s, i, x);
  }

  lemma {:induction false} ResolveAllKeeps(names: set<string>, cfg: Config, g: Deps, p: Progress, alerts: seq<Alert>, now: Time)
    requires Separable(names) && Holds(names, g, p.state) && forall a :: a in alerts ==> a.service in names && a.service != ""
    ensures Holds(names, g, ResolveAll(cfg, p, alerts, now).state)
    ensures |ResolveAll(cfg, p, alerts, now).state.incidents| == |p.state.incidents|
    ensures ResolveAll(cfg, p, alerts, now).state.edges == p.state.edges
  {
    hide Holds;
    if |alerts| > 0 {
      var n := |alerts| - 1;
      ResolveAllKeeps(names, cfg, g, p, alerts[..n], now);
      ResolveKeeps(names, cfg, g, ResolveAll(cfg, p, alerts[..n], now).state, alerts[n], now);
    }
  }

  // ----- Placing a group -----

  /** The delivery's copy of the open incidents agrees with the table on where their roots are. */
  predicate Synced(s: State, open: seq<Incident>) {
    && DistinctIds(open)
    && forall n :: 0 <= n < |open| ==> open[n].id < |s.incidents| && s.incidents[open[n].id].service == open[n].service
  }

  predicate DistinctIds(open: seq<Incident>) { forall m, n :: 0 <= m < n < |open| ==> open[m].id != open[n].id }

  /** What the scan remembers: an incident at the root, one the root depends on, one that depends on the root. */
  lemma {:induction false} ScanFinds(g: Deps, root: string, environment: string, open: seq<Incident>, n: nat)
    requires n <= |open|
    ensures var scan := ScanOpen(g, root, environment, open, n);
            && (scan.same.Some? ==> scan.same.value < n && open[scan.same.value].service == root)
            && (scan.up.Some? ==> scan.up.value.0 < n && Reaches(g, root, open[scan.up.value.0].service))
            && (scan.down.Some? ==> scan.down.value.0 < n && Reaches(g, open[scan.down.value.0].service, root))
  {
    hide Reaches, Distance;
    if n > 0 { ScanFinds(g, root, environment, open, n - 1); }
  }

  lemma CarryingReaches(names: set<string>, cfg: Config, g: Deps, s: State, key: string, now: Time, i: Id, owner: string)
    requires Separable(names) && Holds(names, g, s) && i in Carrying(cfg, s, key, now)
    requires owner in names && Owns(owner, key)
    ensures i < |s.incidents| && Reaches(g, owner, s.incidents[i].service)
  {
    if s.incidents[i].key == key {
      assert IncidentHolds(names, s, i);
      OneOwner(names, owner, s.incidents[i].service, key);
      ReachesSelf(g, owner);
    } else {
      assert RowHolds(names, g, s, (i, key));
      OneOwner(names, owner, s.attached[(i, key)].service, key);
    }
  }

  lemma RootKeyHolds(c: Cluster, root: Alert)
    requires root.service == c.group.root && root.service != ""
    ensures Owns(c.group.root, RootKey(c, root)) && Owns(c.group.root, KeyOf(root))
  {
    KeyHeaded(c.group.root, INFERRED_NAME, root.environment, "topology-" + c.group.root);
    KeyHeaded(root.service, root.name, root.environment, root.fingerprint);
  }

  /** Wherever a group is placed, its root depends on that incident's root, and nothing attached before is cut off. */
  lemma PlaceKeeps(names: set<string>, cfg: Config, g: Deps, s: State, open: seq<Incident>, c: Cluster, root: Alert, now: Time)
    requires Separable(names) && Holds(names, g, s) && Synced(s, open) && c.group.root in names && root.service == c.group.root
    requires c.group.root != ""
    ensures var placed := Place(cfg, g, s, open, c, root, now);
            && Holds(names, g, placed.state) && placed.incident < |placed.state.incidents|
            && Reaches(g, c.group.root, placed.state.incidents[placed.incident].service)
            && placed.state.edges == s.edges
            && |placed.state.incidents| >= |s.incidents| && (placed.created || placed.incident < |s.incidents|)
            && forall i :: 0 <= i < |s.incidents| && i != placed.incident ==> placed.state.incidents[i] == s.incidents[i]
  {
    hide Holds, Reaches;
    RootKeyHolds(c, root);
    ScanFinds(g, c.group.root, c.environment, open, |open|);
    ReachesSelf(g, c.group.root);
    var exact := Latest(s, Carrying(cfg, s, KeyOf(root), now), |s.incidents|);
    var related := Related(g, c.group.root, c.environment, open);
    if exact.Some? {
      CarryingReaches(names, cfg, g, s, KeyOf(root), now, exact.value, c.group.root);
    } else if related.Some? {
      var i := open[related.value.0].id;
      if related.value.1 && open[related.value.0].service != c.group.root { PromoteKeeps(names, g, s, i, c, root); }
    } else {
      AddIncident(names, g, s, CreateFor(s, c, root, now).incidents[|s.incidents|]);
    }
  }

  lemma PromoteKeeps(names: set<string>, g: Deps, s: State, i: Id, c: Cluster, root: Alert)
    requires Holds(names, g, s) && i < |s.incidents| && c.group.root in names && Owns(c.group.root, RootKey(c, root))
    requires Reaches(g, s.incidents[i].service, c.group.root)
    ensures Holds(names, g, Promote(s, i, c, root))
  {
    assert IncidentHolds(names, s, i);
    ChangeIncident(names, g, s, i, Promote(s, i, c, root).incidents[i]);
  }

  // ----- Attaching a group's alerts -----

  lemma PathForHolds(g: Deps, service: string, root: string)
    requires WellFormed(g) && Reaches(g, service, root)
    ensures Connects(g, service, root, PathFor(g, service, root))
  {
    LeastPathIsLeast(g, service, root);
  }

  lemma AttachKeeps(names: set<string>, g: Deps, s: State, i: Id, a: Alert, now: Time)
    requires Separable(names) && WellFormed(g) && Holds(names, g, s) && i < |s.incidents| && a.service in names && a.service != ""
    requires Reaches(g, a.service, s.incidents[i].service)
    ensures Holds(names, g, Attach(g, s, i, a, now)) && Attach(g, s, i, a, now).edges == s.edges
    ensures Attach(g, s, i, a, now).incidents[i].service == s.incidents[i].service
    ensures forall j :: 0 <= j < |s.incidents| && j != i ==> Attach(g, s, i, a, now).incidents[j] == s.incidents[j]
  {
    hide Holds, Reaches, WellFormed;
    var root := s.incidents[i].service;
    var x := Signal(i, a, true, root, PathFor(g, a.service, root));
    PathForHolds(g, a.service, s.incidents[i].service);
    ReachesSelf(g, s.incidents[i].service);
    AddSignalKeeps(names, g, s, x);
    var t := AddSignal(s, x);
    KeyHeaded(a.service, a.name, a.environment, a.fingerprint);
    var k := (i, KeyOf(a));
    if k in t.attached {
      RowFacts(names, g, t, k);
      OneOwner(names, a.service, t.attached[k].service, KeyOf(a));
    }
    TouchKeeps(names, g, t, i, t.incidents[i].(lastSeen := now, clearedAt := None));
    var u := WithIncident(t, i, t.incidents[i].(lastSeen := now, clearedAt := None));
    AddRow(names, g, u, k, Attached(a.service, true, now));
  }

  lemma {:induction false} AttachAllKeeps(names: set<string>, g: Deps, p: Progress, i: Id, alerts: seq<Alert>, now: Time)
    requires Separable(names) && WellFormed(g) && Holds(names, g, p.state) && i < |p.state.incidents|
    requires forall a :: a in alerts ==> a.service in names && a.service != "" && Reaches(g, a.service, p.state.incidents[i].service)
    ensures var q := AttachAll(g, p, i, alerts, now);
            && Holds(names, g, q.state) && q.state.edges == p.state.edges
            && q.state.incidents[i].service == p.state.incidents[i].service
            && forall j :: 0 <= j < |p.state.incidents| && j != i ==> q.state.incidents[j] == p.state.incidents[j]
  {
    hide Holds, Reaches, WellFormed;
    if |alerts| > 0 {
      var n := |alerts| - 1;
      AttachAllKeeps(names, g, p, i, alerts[..n], now);
      AttachKeeps(names, g, AttachAll(g, p, i, alerts[..n], now).state, i, alerts[n], now);
    }
  }

  // ----- The delivery's copy of the open incidents -----

  lemma {:induction false} ReplaceKeeps(items: seq<Incident>, x: Incident)
    requires DistinctIds(items)
    ensures DistinctIds(AppendOrReplace(items, x))
    ensures forall y :: y in AppendOrReplace(items, x) ==> y == x || (y in items && y.id != x.id)
  {
    if |items| > 0 {
      if items[0].id == x.id {
        assert forall n :: 0 < n < |items| ==> items[n].id != x.id;
      } else {
        var rest := AppendOrReplace(items[1..], x);
        ReplaceKeeps(items[1..], x);
        forall n | 0 <= n < |rest| ensures rest[n].id != items[0].id { assert rest[n] in rest; }
      }
    }
  }

  lemma SyncedAfter(s: State, s': State, open: seq<Incident>, x: Incident)
    requires Synced(s, open) && |s.incidents| <= |s'.incidents|
    requires x.id < |s'.incidents| && s'.incidents[x.id].service == x.service
    requires forall i :: 0 <= i < |s.incidents| && i != x.id ==> s'.incidents[i].service == s.incidents[i].service
    ensures Synced(s', AppendOrReplace(open, x))
  {
    ReplaceKeeps(open, x);
    var after := AppendOrReplace(open, x);
    forall n | 0 <= n < |after|
      ensures after[n].id < |s'.incidents| && s'.incidents[after[n].id].service == after[n].service {
      assert after[n] in after;
    }
  }

  lemma {:induction false} InsertKeepsIds(x: Incident, xs: seq<Incident>)
    requires DistinctIds(xs) && forall y :: y in xs ==> y.id != x.id
    ensures DistinctIds(InsertByStart(x, xs))
    ensures forall y :: y in InsertByStart(x, xs) <==> y == x || y in xs
  {
    if |xs| > 0 && x.startedAt > xs[0].startedAt {
      var rest := InsertByStart(x, xs[1..]);
      InsertKeepsIds(x, xs[1..]);
      assert xs == [xs[0]] + xs[1..];
      forall n | 0 <= n < |rest| ensures rest[n].id != xs[0].id { assert rest[n] in rest; }
    }
  }

  lemma {:induction false} OpenSynced(cfg: Config, s: State, n: nat, now: Time)
    requires n <= |s.incidents| && forall i :: 0 <= i < |s.incidents| ==> s.incidents[i].id == i
    ensures Synced(s, OpenFrom(cfg, s, n, now))
    ensures forall x :: x in OpenFrom(cfg, s, n, now) <==>
                        exists i :: n <= i < |s.incidents| && Active(cfg, s, i, now) && x == s.incidents[i]
    decreases |s.incidents| - n
  {
    hide Active;
    if n < |s.incidents| {
      OpenSynced(cfg, s, n + 1, now);
      var rest, open := OpenFrom(cfg, s, n + 1, now), OpenFrom(cfg, s, n, now);
      if Active(cfg, s, n, now) { InsertKeepsIds(s.incidents[n], rest); }
      forall m | 0 <= m < |open| ensures open[m].id < |s.incidents| && s.incidents[open[m].id].service == open[m].service {
        assert open[m] in open;
      }
    }
  }

  // ----- A whole delivery -----

  lemma ReachesNames(names: set<string>, edges: seq<Edge>, a: string, b: string)
    requires EdgesNames(names, edges) && a in names && Reaches(GraphOf(edges), a, b)
    ensures b in names && (a != "" ==> b != "")
  {
    var g := GraphOf(edges);
    var p :| Connects(g, a, b, p);
    GraphMatchesEdges(edges);
    if a != "" { WalkEndsNamed(g, p); }
    if |p| > 1 {
      assert p[|p| - 2 + 1] in Adjacent(g, p[|p| - 2]);
      assert b in Elements(Adjacent(g, p[|p| - 2]));
      assert b in DependenciesOf(edges, p[|p| - 2]);
    }
  }

  lemma MemberReachesRoot(g: Deps, alerts: seq<Alert>, c: Cluster, m: string)
    requires Fits(g, alerts, c) && m in c.group.members
    ensures Reaches(g, m, c.group.root)
  {
    assert m in Elements(c.group.members);
    assert IsLeast(g, m, c.group.root, c.group.paths[m]);
  }

  lemma {:induction false} AlertsForHas(alerts: seq<Alert>, c: Cluster)
    ensures forall a :: a in AlertsFor(alerts, c) <==> a in alerts && InCluster(a, c)
  {
    if |alerts| > 0 {
      AlertsForHas(alerts[..|alerts| - 1], c);
      assert alerts == alerts[..|alerts| - 1] + [alerts[|alerts| - 1]];
    }
  }

  lemma MineReachRoot(names: set<string>, edges: seq<Edge>, alerts: seq<Alert>, c: Cluster)
    requires EdgesNames(names, edges) && Fits(GraphOf(edges), alerts, c) && AlertNames(names, alerts)
    ensures forall a :: a in AlertsFor(alerts, c) ==>
              a.service in names && a.service != "" && Reaches(GraphOf(edges), a.service, c.group.root)
    ensures |AlertsFor(alerts, c)| > 0 ==> c.group.root in names && c.group.root != ""
  {
    hide Fits;
    var mine := AlertsFor(alerts, c);
    AlertsForHas(alerts, c);
    forall a | a in mine ensures Reaches(GraphOf(edges), a.service, c.group.root) {
      MemberReachesRoot(GraphOf(edges), alerts, c, a.service);
    }
    if |mine| > 0 {
      assert mine[0] in mine;
      ReachesNames(names, edges, mine[0].service, c.group.root);
    }
  }

  /** The invariant of a delivery between two clusters. */
  ghost predicate Going(names: set<string>, s0: State, p: Progress) {
    Holds(names, GraphOf(s0.edges), p.state) && Synced(p.state, p.open) && p.state.edges == s0.edges
  }

  lemma IngestClusterKeeps(names: set<string>, cfg: Config, s0: State, p: Progress, alerts: seq<Alert>, c: Cluster, now: Time)
    requires Separable(names) && EdgesNames(names, s0.edges) && Going(names, s0, p) && Fits(GraphOf(s0.edges), alerts, c)
    requires AlertNames(names, alerts)
    ensures Going(names, s0, IngestCluster(cfg, GraphOf(s0.edges), p, alerts, c, now))
  {
    hide Holds, Reaches, Synced, Place, Fits, EdgesNames, RootUnseen, GraphOf, RootAlert, WellFormed;
    var g, mine := GraphOf(s0.edges), AlertsFor(alerts, c);
    if |mine| > 0 {
      MineReachRoot(names, s0.edges, alerts, c);
      var root := RootAlert(mine, c.group.root);
      PlaceKeeps(names, cfg, g, p.state, p.open, c, root, now);
      var placed := Place(cfg, g, p.state, p.open, c, root, now);
      var i := placed.incident;
      forall a | a in mine ensures Reaches(g, a.service, placed.state.incidents[i].service) {
        ReachesTransitive(g, a.service, c.group.root, placed.state.incidents[i].service);
      }
      GraphMatchesEdges(s0.edges);
      var inferred := if placed.created || placed.promoted then c.group.inferred else RootUnseen(p.state, i);
      var start := Progress(placed.state, p.open, CountGroup(p.stats, c, inferred));
      AttachAllKeeps(names, g, start, i, mine, now);
      IdIsIndex(names, g, placed.state, i);
      SyncedAfter(p.state, AttachAll(g, start, i, mine, now).state, p.open, placed.state.incidents[i]);
    }
  }

  lemma IdIsIndex(names: set<string>, g: Deps, s: State, i: Id)
    requires Holds(names, g, s) && i < |s.incidents|
    ensures s.incidents[i].id == i
  {
    assert IncidentHolds(names, s, i);
  }

  lemma {:induction false} IngestClustersKeeps(
    names: set<string>, cfg: Config, s0: State, p: Progress, alerts: seq<Alert>, cs: seq<Cluster>, now: Time)
    requires Separable(names) && EdgesNames(names, s0.edges) && Going(names, s0, p)
    requires forall i :: 0 <= i < |cs| ==> Fits(GraphOf(s0.edges), alerts, cs[i])
    requires AlertNames(names, alerts)
    ensures Going(names, s0, IngestClusters(cfg, GraphOf(s0.edges), p, alerts, cs, now))
  {
    hide Going, Fits, EdgesNames, IngestCluster;
    if |cs| > 0 {
      var n := |cs| - 1;
      IngestClustersKeeps(names, cfg, s0, p, alerts, cs[..n], now);
      IngestClusterKeeps(names, cfg, s0, IngestClusters(cfg, GraphOf(s0.edges), p, alerts, cs[..n], now), alerts, cs[n], now);
    }
  }

  lemma DeliverKeeps(names: set<string>, cfg: Config, s: State, step: Step)
    requires Separable(names) && step.Deliver? && StepNames(names, step)
    requires EdgesNames(names, s.edges) && Holds(names, GraphOf(s.edges), s)
    ensures Holds(names, GraphOf(s.edges), Next(cfg, s, step)) && Next(cfg, s, step).edges == s.edges
  {
    hide Holds, EdgesNames, GraphOf, IsClustering, ResolveAll, IngestClusters, OpenFrom, Splits;
    var g, now := GraphOf(s.edges), step.now;
    if Deliverable(s, step) {
      var start := Progress(s, [], Stats(|step.firing|, 0, 0, 0, 0, 0, 0, 0, 0));
      ResolveAllKeeps(names, cfg, g, start, step.resolved, now);
      if |step.firing| > 0 {
        var p := ResolveAll(cfg, start, step.resolved, now);
        forall i | 0 <= i < |p.state.incidents| ensures p.state.incidents[i].id == i { IdIsIndex(names, g, p.state, i); }
        OpenSynced(cfg, p.state, 0, now);
        ClustersFit(g, step.firing, step.clusters);
        IngestClustersKeeps(names, cfg, s, p.(open := OpenFrom(cfg, p.state, 0, now)), step.firing, step.clusters, now);
      }
    }
  }

  lemma ClustersFit(g: Deps, alerts: seq<Alert>, cs: seq<Cluster>)
    requires IsClustering(g, alerts, cs)
    ensures forall i :: 0 <= i < |cs| ==> Fits(g, alerts, cs[i])
  {
    hide IsClustering, Fits;
    ClusteringSplits(g, alerts, cs);
  }

  lemma OpenKeeps(names: set<string>, cfg: Config, s: State, step: Step)
    requires step.OpenManually? && StepNames(names, step) && Holds(names, GraphOf(s.edges), s)
    ensures Holds(names, GraphOf(s.edges), Next(cfg, s, step))
  {
    ManualKeyOwned(step.service, step.title);
    AddIncident(names, GraphOf(s.edges), s, Next(cfg, s, step).incidents[|s.incidents|]);
  }

  lemma TickKeeps(names: set<string>, g: Deps, s: State, to: Time)
    requires Holds(names, g, s)
    ensures Holds(names, g, s.(clock := to))
  {
    var s' := s.(clock := to);
    forall k | k in s.attached ensures RowHolds(names, g, s', k) { assert RowHolds(names, g, s, k); }
    forall n | 0 <= n < |s.signals| ensures SignalHolds(g, s', s.signals[n]) { assert SignalHolds(g, s, s.signals[n]); }
    forall i | 0 <= i < |s.incidents| ensures IncidentHolds(names, s', i) { assert IncidentHolds(names, s, i); }
  }

  lemma StepKeeps(names: set<string>, cfg: Config, s: State, step: Step)
    requires Separable(names) && StepNames(names, step) && EdgesNames(names, s.edges) && Holds(names, GraphOf(s.edges), s)
    ensures EdgesNames(names, Next(cfg, s, step).edges) && Holds(names, GraphOf(Next(cfg, s, step).edges), Next(cfg, s, step))
  {
    hide Holds, GraphOf, Ingest;
    if step.AddEdge? { AddEdgeKeeps(names, s, step.edge); }
    else if step.OpenManually? { OpenKeeps(names, cfg, s, step); }
    else if step.Close? {
      if step.id < |s.incidents| { TouchKeeps(names, GraphOf(s.edges), s, step.id, s.incidents[step.id].(closed := true)); }
    }
    else if step.Tick? { TickKeeps(names, GraphOf(s.edges), s, step.to); }
    else { DeliverKeeps(names, cfg, s, step); }
  }

  lemma {:induction false} RunKeeps(names: set<string>, cfg: Config, steps: seq<Step>)
    requires Separable(names) && forall n :: 0 <= n < |steps| ==> StepNames(names, steps[n])
    ensures EdgesNames(names, Run(cfg, steps).edges) && Holds(names, GraphOf(Run(cfg, steps).edges), Run(cfg, steps))
  {
    if |steps| > 0 {
      hide Holds, GraphOf, EdgesNames, Next, StepNames;
      var n := |steps| - 1;
      RunKeeps(names, cfg, steps[..n]);
      StepKeeps(names, cfg, Run(cfg, steps[..n]), steps[n]);
    }
  }

  /** In every state a run reaches, each attached alert and each recorded notification comes from a service that
      depends on the incident's current root, however often roots were promoted since; and each path recorded for a
      firing alert is a real dependency path from its service, with the current root at its end or beyond. */
  lemma AttachedAlertsReachTheRoot(names: set<string>, cfg: Config, steps: seq<Step>)
    requires Separable(names) && forall n :: 0 <= n < |steps| ==> StepNames(names, steps[n])
    ensures var s := Run(cfg, steps);
            var g := GraphOf(s.edges);
            && (forall k :: k in s.attached ==>
                  k.0 < |s.incidents| && Reaches(g, s.attached[k].service, s.incidents[k.0].service))
            && (forall n :: 0 <= n < |s.signals| ==> SignalHolds(g, s, s.signals[n]))
  {
    hide Run, Reaches, GraphOf;
    RunKeeps(names, cfg, steps);
    var s := Run(cfg, steps);
    forall k | k in s.attached
      ensures k.0 < |s.incidents| && Reaches(GraphOf(s.edges), s.attached[k].service, s.incidents[k.0].service) {
      assert RowHolds(names, GraphOf(s.edges), s, k);
    }
  }
}
