/** Without separable names the path invariant fails: two steps are enough. */
module CollidingNames {
  import opened Text
  import opened Walks
  import opened Grouping
  import opened Topology
  import opened Incidents
  import opened IncidentPaths

  const NO_EDGES: Deps := map[]

  lemma NowhereToGo(a: string, b: string)
    requires Reaches(NO_EDGES, a, b)
    ensures a == b
  {
    var p :| Connects(NO_EDGES, a, b, p);
    ClosedUnderSteps(NO_EDGES, {a}, p);
  }

  function Alone(v: string): Group { Group(v, false, [v], map[v := [v]]) }

  lemma AloneIsGrouping(v: string)
    requires v != ""
    ensures IsGrouping(NO_EDGES, [v], [Alone(v)])
  {
    var u: set<string> := {v};
    assert Alerted([v]) == u;
    ReachesSelf(NO_EDGES, v);
    assert Members(NO_EDGES, v, u) == u;
    assert Elements([v]) == u;
    assert IsLeast(NO_EDGES, v, v, [v]);
    forall c | Candidate(NO_EDGES, u, c) ensures c == v { NowhereToGo(v, c); }
    assert Candidate(NO_EDGES, u, v);
    assert Round(NO_EDGES, u, u, Alone(v));
    assert u - Elements(Alone(v).members) == {};
    var rounds := [Alone(v)];
    assert rounds[1..] == [];
    assert Rounds(NO_EDGES, u, u, rounds);
    assert SortByRoot(rounds) == rounds;
  }

  lemma AloneIsClustering(a: Alert)
    requires a.service != ""
    ensures IsClustering(NO_EDGES, [a], [Cluster(a.environment, Alone(a.service))])
  {
    hide IsGrouping;
    AloneIsGrouping(a.service);
    var cs := [Cluster(a.environment, Alone(a.service))];
    var groups, environments := [Alone(a.service)], [a.environment];
    assert ServicesIn([a], a.environment) == [a.service] by { assert [a][..0] == []; }
    assert environments[..0] == [];
    var before: seq<Cluster> := [];
    assert ClustersFor(NO_EDGES, [a], [], before);
    assert cs == before + Clustered(a.environment, groups);
    assert ClustersFor(NO_EDGES, [a], environments, cs) by {
      assert && cs == before + Clustered(environments[0], groups)
             && IsGrouping(NO_EDGES, ServicesIn([a], environments[0]), groups)
             && ClustersFor(NO_EDGES, [a], environments[..0], before);
    }
    assert Elements(environments) == Environments([a]);
  }

  function Solo(a: Alert): Step { Deliver(0, [], [a], [Cluster(a.environment, Alone(a.service))]) }

  lemma SoloCluster(cfg: Config, p: Progress, a: Alert, placed: Placement)
    requires placed == Place(cfg, NO_EDGES, p.state, p.open, Cluster(a.environment, Alone(a.service)), a, 0)
    requires placed.incident < |placed.state.incidents| && (placed.created || placed.incident < |p.state.incidents|)
    ensures IngestCluster(cfg, NO_EDGES, p, [a], Cluster(a.environment, Alone(a.service)), 0).state ==
            Attach(NO_EDGES, placed.state, placed.incident, a, 0)
  {
    hide RootUnseen, AppendOrReplace, Attach, Place;
    var c := Cluster(a.environment, Alone(a.service));
    assert [a][..0] == [];
    assert AlertsFor([a], c) == [a];
    assert RootAlert([a], a.service) == a;
    var inferred := if placed.created || placed.promoted then c.group.inferred else RootUnseen(p.state, placed.incident);
    var start := Progress(placed.state, p.open, CountGroup(p.stats, c, inferred));
    assert AttachAll(NO_EDGES, start, placed.incident, [], 0) == start;
  }

  /** A delivery of one alert, with no dependencies recorded, attaches it where it is placed. */
  lemma SoloDelivery(cfg: Config, s: State, a: Alert, placed: Placement)
    requires s.edges == [] && a.service != ""
    requires placed == Place(cfg, NO_EDGES, s, OpenFrom(cfg, s, 0, 0), Cluster(a.environment, Alone(a.service)), a, 0)
    requires placed.incident < |placed.state.incidents| && (placed.created || placed.incident < |s.incidents|)
    ensures Next(cfg, s, Solo(a)) == Attach(NO_EDGES, placed.state, placed.incident, a, 0)
  {
    hide OpenFrom, Place, IsClustering, Attach, IngestCluster;
    var c := Cluster(a.environment, Alone(a.service));
    AloneIsClustering(a);
    assert GraphOf([]) == NO_EDGES;
    assert [c][..0] == [];
    var p := Progress(s, OpenFrom(cfg, s, 0, 0), Stats(1, 0, 0, 0, 0, 0, 0, 0, 0));
    assert IngestClusters(cfg, NO_EDGES, p, [a], [], 0) == p;
    SoloCluster(cfg, p, a, placed);
  }

  /** The first delivery opens an incident for its alert. */
  lemma FirstDelivery(cfg: Config, a: Alert)
    requires a.service != ""
    ensures var s := Next(cfg, INITIAL, Solo(a));
            && s.edges == [] && |s.signals| == 1
            && s.incidents == [Incident(0, a.service, a.environment, KeyOf(a), a.startsAt, false, 0, None)]
  {
    hide Next;
    var c := Cluster(a.environment, Alone(a.service));
    SoloDelivery(cfg, INITIAL, a, Placement(CreateFor(INITIAL, c, a, 0), 0, true, false));
  }

  /** The next finds it by key and attaches its alert, whatever its service. */
  lemma NextDelivery(cfg: Config, s: State, a: Alert)
    requires s.edges == [] && |s.incidents| == 1 && a.service != ""
    requires !s.incidents[0].closed && s.incidents[0].key == KeyOf(a)
    ensures var t := Next(cfg, s, Solo(a));
            && t.edges == [] && |t.incidents| == 1 && t.incidents[0].service == s.incidents[0].service
            && |t.signals| == |s.signals| + 1 && t.signals[|s.signals|].alert == a && t.signals[|s.signals|].incident == 0
  {
    hide Next, OpenFrom, Related;
    assert 0 in Carrying(cfg, s, KeyOf(a), 0);
    assert Latest(s, Carrying(cfg, s, KeyOf(a), 0), 1) == Some(0);
    SoloDelivery(cfg, s, a, Placement(s, 0, false, false));
  }

  // ----- Two names that collide -----

  /** What opens an incident on the first name with a key the second name can have, and an alert with that key. */
  function Opening(s: string, t: string): (Step, Alert)
    requires Collide(s, t)
  {
    if s != "" then (Solo(Alert(s, t[|s| + 1..] + ":x", "y", "z", 0)), Alert(t, "x", "y", "z", 0))
    else if |t| == 7 then (OpenManually("", "x:y"), Alert(t, "x", "y", "manual", 0))
    else (OpenManually("", t[8..] + ":x:y"), Alert(t, "x", "y", "manual", 0))
  }

  lemma ManualCollides(t: string)
    requires Collide("", t)
    ensures Opening("", t).0.OpenManually? && KeyOf(Opening("", t).1) == ManualKey("", Opening("", t).0.title)
  {
    var own := t + ":";
    assert own[..8] == ":manual:";
    if |t| == 7 {
      assert t == own[..7] == ":manual";
      assert ManualKey("", "x:y") == Key(t, "x", "y", "manual");
    } else {
      assert t == t[..8] + t[8..] && t[..8] == own[..8];
      assert ManualKey("", t[8..] + ":x:y") == ":manual:" + t[8..] + ":x:y:manual" == Key(t, "x", "y", "manual");
    }
  }

  lemma OpeningCarries(cfg: Config, s: string, t: string)
    requires Collide(s, t)
    ensures var state := Next(cfg, INITIAL, Opening(s, t).0);
            && state.edges == [] && |state.incidents| == 1 && !state.incidents[0].closed
            && state.incidents[0].service == s && state.incidents[0].key == KeyOf(Opening(s, t).1)
    ensures Opening(s, t).1.service == t && StepNames({s, t}, Opening(s, t).0)
  {
    hide KeyOf, ManualKey;
    if s == "" {
      ManualCollides(t);
    } else {
      hide Next;
      var a, b := Alert(s, t[|s| + 1..] + ":x", "y", "z", 0), Opening(s, t).1;
      assert KeyOf(a) == KeyOf(b) by { CollidingKeys(s, t); KeysOfAlerts(a, b); }
      FirstDelivery(cfg, a);
    }
  }

  ghost predicate PathsHold(s: State) {
    forall n :: 0 <= n < |s.signals| ==> SignalHolds(GraphOf(s.edges), s, s.signals[n])
  }

  predicate OnlyNames(names: set<string>, steps: seq<Step>) {
    forall n :: 0 <= n < |steps| ==> StepNames(names, steps[n])
  }

  /** For any two such names there is a run naming nothing else in which an alert is attached to an incident its
      service has no path to. */
  lemma CollidingNamesLosePaths(cfg: Config, s: string, t: string) returns (steps: seq<Step>)
    requires Collide(s, t)
    ensures OnlyNames({s, t}, steps) && !PathsHold(Run(cfg, steps))
  {
    hide Next, KeyOf, Opening;
    var first, b := Opening(s, t).0, Opening(s, t).1;
    OpeningCarries(cfg, s, t);
    steps := [first, Solo(b)];
    assert steps[..1] == [first] && [first][..0] == [];
    assert Run(cfg, []) == INITIAL && Run(cfg, [first]) == Next(cfg, INITIAL, first);
    var before, end := Run(cfg, [first]), Run(cfg, steps);
    NextDelivery(cfg, before, b);
    assert GraphOf([]) == NO_EDGES;
    if Reaches(NO_EDGES, t, s) { NowhereToGo(t, s); }
    assert !SignalHolds(GraphOf(end.edges), end, end.signals[|before.signals|]);
  }

  /** Separable names are exactly what the path invariant needs. */
  lemma PathsHoldExactlyForSeparableNames(cfg: Config, names: set<string>)
    ensures (forall steps :: OnlyNames(names, steps) ==> PathsHold(Run(cfg, steps))) <==> Separable(names)
  {
    hide PathsHold, Run;
    if Separable(names) {
      forall steps | OnlyNames(names, steps) ensures PathsHold(Run(cfg, steps)) {
        SeparableNamesKeepPaths(names, cfg, steps);
      }
    } else {
      var s, t :| s in names && t in names && Collide(s, t);
      var steps := CollidingNamesLosePaths(cfg, s, t);
      assert OnlyNames(names, steps);
    }
  }

  lemma SeparableNamesKeepPaths(names: set<string>, cfg: Config, steps: seq<Step>)
    requires Separable(names) && OnlyNames(names, steps)
    ensures PathsHold(Run(cfg, steps))
  {
    hide Run, SignalHolds;
    AttachedAlertsReachTheRoot(names, cfg, steps);
  }

  lemma KeysOfAlerts(a: Alert, b: Alert)
    ensures KeyOf(a) == Key(a.service, a.name, a.environment, a.fingerprint)
    ensures KeyOf(b) == Key(b.service, b.name, b.environment, b.fingerprint)
  {
  }
}
