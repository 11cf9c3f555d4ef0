/** The clusters of one delivery split its firing alerts: every alert is in exactly one of them. */
module Clusters {
  import opened Text
  import opened Walks
  import opened Grouping
  import opened Incidents

  lemma {:induction false} ServicesInHas(alerts: seq<Alert>, environment: string, service: string)
    ensures service in ServicesIn(alerts, environment) <==>
            exists a :: a in alerts && a.environment == environment && a.service == service
  {
    if |alerts| > 0 {
      var front, last := alerts[..|alerts| - 1], alerts[|alerts| - 1];
      ServicesInHas(front, environment, service);
      assert alerts == front + [last];
      assert forall a :: a in alerts <==> a in front || a == last;
    }
  }

  // ----- One cluster per alert -----

  predicate Disjoint(a: Cluster, b: Cluster) {
    a.environment != b.environment || Elements(a.group.members) !! Elements(b.group.members)
  }

  predicate Belongs(a: Alert, cs: seq<Cluster>) { exists i :: 0 <= i < |cs| && InCluster(a, cs[i]) }

  ghost predicate Fits(g: Deps, alerts: seq<Alert>, c: Cluster) {
    var services := Alerted(ServicesIn(alerts, c.environment));
    Sound(g, services, c.group) && Elements(c.group.members) <= services
  }

  /** Disjoint sound clusters of the listed environments that take in all their alerts. */
  ghost predicate Splits(g: Deps, alerts: seq<Alert>, environments: set<string>, cs: seq<Cluster>) {
    && (forall i :: 0 <= i < |cs| ==> cs[i].environment in environments && Fits(g, alerts, cs[i]))
    && (forall i, j :: 0 <= i < j < |cs| ==> Disjoint(cs[i], cs[j]))
    && (forall a :: a in alerts && a.environment in environments && a.service != "" ==> Belongs(a, cs))
  }

  lemma OneEnvironmentSplits(g: Deps, alerts: seq<Alert>, environment: string, groups: seq<Group>)
    requires IsGrouping(g, ServicesIn(alerts, environment), groups)
    ensures Splits(g, alerts, {environment}, Clustered(environment, groups))
  {
    hide IsGrouping, Sound;
    var cs, services := Clustered(environment, groups), ServicesIn(alerts, environment);
    GroupingPartitions(g, services, groups);
    forall i, j | 0 <= i < j < |cs| ensures Disjoint(cs[i], cs[j]) { assert Apart(groups[i], groups[j]); }
    forall a | a in alerts && a.environment == environment && a.service != "" ensures Belongs(a, cs) {
      ServicesInHas(alerts, environment, a.service);
      assert InSome(groups, a.service);
      var i :| 0 <= i < |groups| && a.service in groups[i].members;
      assert InCluster(a, cs[i]);
    }
  }

  lemma JoinSplits(g: Deps, alerts: seq<Alert>, u: set<string>, v: set<string>, cs: seq<Cluster>, ds: seq<Cluster>)
    requires Splits(g, alerts, u, cs) && Splits(g, alerts, v, ds) && u !! v
    ensures Splits(g, alerts, u + v, cs + ds)
  {
    hide Fits;
    var both := cs + ds;
    forall i | 0 <= i < |both| ensures both[i].environment in u + v && Fits(g, alerts, both[i]) {
      assert if i < |cs| then both[i] == cs[i] else both[i] == ds[i - |cs|];
    }
    forall i, j | 0 <= i < j < |both| ensures Disjoint(both[i], both[j]) {
      if j < |cs| { assert Disjoint(cs[i], cs[j]); }
      else if i >= |cs| { assert Disjoint(ds[i - |cs|], ds[j - |cs|]); }
      else { assert cs[i].environment in u && ds[j - |cs|].environment in v; }
    }
    forall a | a in alerts && a.environment in u + v && a.service != "" ensures Belongs(a, both) {
      if a.environment in u {
        assert Belongs(a, cs);
        var i :| 0 <= i < |cs| && InCluster(a, cs[i]);
        assert InCluster(a, both[i]);
      } else {
        assert Belongs(a, ds);
        var i :| 0 <= i < |ds| && InCluster(a, ds[i]);
        assert InCluster(a, both[i + |cs|]);
      }
    }
  }

  lemma NothingSplits(g: Deps, alerts: seq<Alert>, environments: seq<string>, cs: seq<Cluster>)
    requires |environments| == 0 && |cs| == 0
    ensures Splits(g, alerts, Elements(environments), cs)
  {
  }

  lemma LastIsNew(xs: seq<string>)
    requires StrictlySorted(xs) && |xs| > 0
    ensures StrictlySorted(xs[..|xs| - 1]) && xs[|xs| - 1] !in Elements(xs[..|xs| - 1])
    ensures Elements(xs) == Elements(xs[..|xs| - 1]) + {xs[|xs| - 1]}
  {
    LessIrreflexive(xs[|xs| - 1]);
    assert xs == xs[..|xs| - 1] + [xs[|xs| - 1]];
  }

  lemma {:induction false} ListedSplits(g: Deps, alerts: seq<Alert>, environments: seq<string>, cs: seq<Cluster>)
    requires StrictlySorted(environments) && ClustersFor(g, alerts, environments, cs)
    ensures Splits(g, alerts, Elements(environments), cs)
    decreases |environments|
  {
    hide Splits, IsGrouping, StrictlySorted;
    if |environments| == 0 {
      NothingSplits(g, alerts, environments, cs);
    } else {
      var n := |environments| - 1;
      var before: seq<Cluster>, groups: seq<Group> :|
        && cs == before + Clustered(environments[n], groups)
        && IsGrouping(g, ServicesIn(alerts, environments[n]), groups)
        && ClustersFor(g, alerts, environments[..n], before);
      LastIsNew(environments);
      ListedSplits(g, alerts, environments[..n], before);
      OneEnvironmentSplits(g, alerts, environments[n], groups);
      JoinSplits(g, alerts, Elements(environments[..n]), {environments[n]}, before, Clustered(environments[n], groups));
    }
  }

  /** The clusters of a delivery are sound groups, no two share a service of one environment, and none misses one. */
  lemma ClusteringSplits(g: Deps, alerts: seq<Alert>, cs: seq<Cluster>)
    requires IsClustering(g, alerts, cs)
    ensures Splits(g, alerts, Environments(alerts), cs)
  {
    hide Splits, ClustersFor;
    var environments :|
      StrictlySorted(environments) && Elements(environments) == Environments(alerts) && ClustersFor(g, alerts, environments, cs);
    ListedSplits(g, alerts, environments, cs);
  }

  /** Which clusters a delivery has depends on its alerts' set of environments and services alone. */
  lemma ClusteringIsDetermined(g: Deps, a: seq<Alert>, b: seq<Alert>, cs: seq<Cluster>, ds: seq<Cluster>)
    requires WellFormed(g) && (forall x :: x in a <==> x in b) && IsClustering(g, a, cs) && IsClustering(g, b, ds)
    ensures cs == ds
  {
    var p :| StrictlySorted(p) && Elements(p) == Environments(a) && ClustersFor(g, a, p, cs);
    var q :| StrictlySorted(q) && Elements(q) == Environments(b) && ClustersFor(g, b, q, ds);
    SortedUnique(p, q);
    ListedDetermined(g, a, b, p, cs, ds);
  }

  lemma {:induction false} ListedDetermined(
    g: Deps, a: seq<Alert>, b: seq<Alert>, environments: seq<string>, cs: seq<Cluster>, ds: seq<Cluster>)
    requires WellFormed(g) && forall x :: x in a <==> x in b
    requires ClustersFor(g, a, environments, cs) && ClustersFor(g, b, environments, ds)
    ensures cs == ds
    decreases |environments|
  {
    if |environments| > 0 {
      hide IsGrouping, WellFormed;
      var n := |environments| - 1;
      var e := environments[n];
      var before: seq<Cluster>, groups: seq<Group> :|
        && cs == before + Clustered(e, groups) && IsGrouping(g, ServicesIn(a, e), groups)
        && ClustersFor(g, a, environments[..n], before);
      var before': seq<Cluster>, groups': seq<Group> :|
        && ds == before' + Clustered(e, groups') && IsGrouping(g, ServicesIn(b, e), groups')
        && ClustersFor(g, b, environments[..n], before');
      ListedDetermined(g, a, b, environments[..n], before, before');
      SameServices(a, b, e);
      GroupingIsDetermined(g, ServicesIn(a, e), ServicesIn(b, e), groups, groups');
    }
  }

  lemma SameServices(a: seq<Alert>, b: seq<Alert>, environment: string)
    requires forall x :: x in a <==> x in b
    ensures Alerted(ServicesIn(a, environment)) == Alerted(ServicesIn(b, environment))
  {
    forall s ensures s in ServicesIn(a, environment) <==> s in ServicesIn(b, environment) {
      ServicesInHas(a, environment, s);
      ServicesInHas(b, environment, s);
    }
  }

  // ----- Nothing lost, nothing twice -----

  /** The alerts taken by the clusters, with repetition. */
  ghost function Taken(alerts: seq<Alert>, cs: seq<Cluster>): multiset<Alert> {
    if |cs| == 0 then multiset{}
    else Taken(alerts, cs[..|cs| - 1]) + multiset(AlertsFor(alerts, cs[|cs| - 1]))
  }

  ghost function Takers(a: Alert, cs: seq<Cluster>): nat {
    if |cs| == 0 then 0 else Takers(a, cs[..|cs| - 1]) + if InCluster(a, cs[|cs| - 1]) then 1 else 0
  }

  lemma {:induction false} TakenOneMore(alerts: seq<Alert>, a: Alert, cs: seq<Cluster>)
    ensures Taken(alerts + [a], cs) == Taken(alerts, cs) + multiset{}[a := Takers(a, cs)]
  {
    hide InCluster;
    if |cs| > 0 {
      var n := |cs| - 1;
      TakenOneMore(alerts, a, cs[..n]);
      assert (alerts + [a])[..|alerts + [a]| - 1] == alerts;
      assert AlertsFor(alerts + [a], cs[n]) == AlertsFor(alerts, cs[n]) + if InCluster(a, cs[n]) then [a] else [];
    }
  }

  lemma {:induction false} TakenNone(cs: seq<Cluster>)
    ensures Taken([], cs) == multiset{}
  {
    if |cs| > 0 { TakenNone(cs[..|cs| - 1]); }
  }

  lemma {:induction false} NoTakers(a: Alert, cs: seq<Cluster>)
    requires !Belongs(a, cs)
    ensures Takers(a, cs) == 0
  {
    if |cs| > 0 {
      var before := cs[..|cs| - 1];
      forall i | 0 <= i < |before| ensures !InCluster(a, before[i]) { assert !InCluster(a, cs[i]); }
      NoTakers(a, before);
    }
  }

  lemma {:induction false} OneTaker(a: Alert, cs: seq<Cluster>)
    requires Belongs(a, cs) && forall i, j :: 0 <= i < j < |cs| ==> Disjoint(cs[i], cs[j])
    ensures Takers(a, cs) == 1
  {
    var n := |cs| - 1;
    var i :| 0 <= i < |cs| && InCluster(a, cs[i]);
    if InCluster(a, cs[n]) {
      forall j | 0 <= j < n ensures !InCluster(a, cs[..n][j]) {
        assert Disjoint(cs[j], cs[n]);
        assert a.service in Elements(cs[n].group.members);
        assert a.service in cs[j].group.members ==> a.service in Elements(cs[j].group.members);
      }
      NoTakers(a, cs[..n]);
    } else {
      assert InCluster(a, cs[..n][i]);
      OneTaker(a, cs[..n]);
    }
  }

  /** The clusters take every alert exactly once, repeated alerts as often as they were delivered. */
  lemma {:induction false} TakenIsAll(alerts: seq<Alert>, cs: seq<Cluster>)
    requires forall i, j :: 0 <= i < j < |cs| ==> Disjoint(cs[i], cs[j])
    requires forall a :: a in alerts ==> Belongs(a, cs)
    ensures Taken(alerts, cs) == multiset(alerts)
  {
    if |alerts| == 0 { TakenNone(cs); }
    else {
      var n := |alerts| - 1;
      assert alerts == alerts[..n] + [alerts[n]];
      TakenIsAll(alerts[..n], cs);
      TakenOneMore(alerts[..n], alerts[n], cs);
      OneTaker(alerts[n], cs);
    }
  }

  // ----- Distinct services -----

  function Pairs(alerts: seq<Alert>): set<(string, string)> { set a | a in alerts :: (a.environment, a.service) }

  function PairsOf(c: Cluster): set<(string, string)> { set m | m in c.group.members :: (c.environment, m) }

  function AllPairs(cs: seq<Cluster>): set<(string, string)> {
    if |cs| == 0 then {} else AllPairs(cs[..|cs| - 1]) + PairsOf(cs[|cs| - 1])
  }

  function MemberCount(cs: seq<Cluster>): nat {
    if |cs| == 0 then 0 else MemberCount(cs[..|cs| - 1]) + |cs[|cs| - 1].group.members|
  }

  lemma {:induction false} AllPairsHas(cs: seq<Cluster>, p: (string, string))
    ensures p in AllPairs(cs) <==> exists i :: 0 <= i < |cs| && p in PairsOf(cs[i])
  {
    if |cs| > 0 {
      var n := |cs| - 1;
      AllPairsHas(cs[..n], p);
      if i :| 0 <= i < |cs| && p in PairsOf(cs[i]) {
        if i < n { assert p in PairsOf(cs[..n][i]); }
      }
    }
  }

  lemma {:induction false} PairCount(environment: string, members: seq<string>)
    requires StrictlySorted(members)
    ensures |set m | m in members :: (environment, m)| == |members|
  {
    var pairs := set m | m in members :: (environment, m);
    if |members| > 0 {
      TailElements(members);
      PairCount(environment, members[1..]);
      assert members == [members[0]] + members[1..];
      assert members[0] !in Elements(members[1..]);
      assert pairs == (set m | m in members[1..] :: (environment, m)) + {(environment, members[0])};
    }
  }

  lemma {:induction false} CountPairs(cs: seq<Cluster>)
    requires forall i, j :: 0 <= i < j < |cs| ==> Disjoint(cs[i], cs[j])
    requires forall i :: 0 <= i < |cs| ==> StrictlySorted(cs[i].group.members)
    ensures |AllPairs(cs)| == MemberCount(cs)
  {
    if |cs| > 0 {
      var n := |cs| - 1;
      CountPairs(cs[..n]);
      PairCount(cs[n].environment, cs[n].group.members);
      forall p | p in AllPairs(cs[..n]) ensures p !in PairsOf(cs[n]) {
        AllPairsHas(cs[..n], p);
        var i :| 0 <= i < n && p in PairsOf(cs[..n][i]);
        assert Disjoint(cs[i], cs[n]) && p.1 in Elements(cs[i].group.members);
        assert p in PairsOf(cs[n]) ==> p.1 in Elements(cs[n].group.members);
      }
      assert AllPairs(cs[..n]) !! PairsOf(cs[n]);
    }
  }

  lemma PairOfCluster(g: Deps, alerts: seq<Alert>, c: Cluster, p: (string, string))
    requires Fits(g, alerts, c) && p in PairsOf(c)
    ensures p in Pairs(alerts)
  {
    assert p.1 in Elements(c.group.members) && p.0 == c.environment;
    ServicesInHas(alerts, c.environment, p.1);
    var a :| a in alerts && a.environment == c.environment && a.service == p.1;
  }

  /** The members of all clusters together are the distinct (environment, service) pairs of the alerts. */
  lemma MembersArePairs(g: Deps, alerts: seq<Alert>, cs: seq<Cluster>)
    requires Splits(g, alerts, Environments(alerts), cs) && forall a :: a in alerts ==> a.service != ""
    ensures MemberCount(cs) == |Pairs(alerts)|
  {
    forall p ensures p in AllPairs(cs) <==> p in Pairs(alerts) {
      AllPairsHas(cs, p);
      if p in AllPairs(cs) {
        var i :| 0 <= i < |cs| && p in PairsOf(cs[i]);
        PairOfCluster(g, alerts, cs[i], p);
      }
      if p in Pairs(alerts) {
        var a :| a in alerts && p == (a.environment, a.service);
        assert Belongs(a, cs);
        var i :| 0 <= i < |cs| && InCluster(a, cs[i]);
        assert p in PairsOf(cs[i]);
      }
    }
    assert AllPairs(cs) == Pairs(alerts);
    forall i | 0 <= i < |cs| ensures StrictlySorted(cs[i].group.members) { assert Fits(g, alerts, cs[i]); }
    CountPairs(cs);
  }
}
