/** Where the alerts of a group go, stated on the tables: the incident that carries the root alert, else the nearest one
    in the graph, else a new one. */
module Placements {
  import opened Text
  import opened Walks
  import opened Incidents
  import opened RelatedIncidents
  import opened ResolvedAlerts

  /** Not closed, and with something fresh on it or seen within the grouping window. */
  predicate Live(cfg: Config, s: State, i: Id, now: Time)
    requires i < |s.incidents|
  {
    !s.incidents[i].closed && (Fresh(cfg, s, i, now) || s.incidents[i].lastSeen + cfg.window >= now)
  }

  lemma ActiveIsLive(cfg: Config, s: State, i: Id, now: Time)
    requires i < |s.incidents|
    ensures Active(cfg, s, i, now) <==> Live(cfg, s, i, now)
  {
    hide StillFiring, Fresh;
    FreshIs(cfg, s, i, now);
  }

  predicate Carries(cfg: Config, s: State, key: string, now: Time, i: Id) {
    i < |s.incidents| && Live(cfg, s, i, now) && (s.incidents[i].key == key || (i, key) in s.attached)
  }

  /** The live incident with this alert that was seen last, and of several the oldest. */
  predicate FoundByKey(cfg: Config, s: State, key: string, now: Time, i: Id) {
    && Carries(cfg, s, key, now, i)
    && forall j :: 0 <= j < |s.incidents| && j != i && Carries(cfg, s, key, now, j) ==>
         s.incidents[j].lastSeen < s.incidents[i].lastSeen || (s.incidents[j].lastSeen == s.incidents[i].lastSeen && i < j)
  }

  lemma CarryingIs(cfg: Config, s: State, key: string, now: Time)
    ensures forall j: Id :: j in Carrying(cfg, s, key, now) <==> Carries(cfg, s, key, now, j)
  {
    hide Active, Live;
    forall j: Id | j < |s.incidents| ensures Active(cfg, s, j, now) <==> Live(cfg, s, j, now) { ActiveIsLive(cfg, s, j, now); }
  }

  lemma LatestCarrying(cfg: Config, s: State, key: string, now: Time, i: Id)
    ensures Latest(s, Carrying(cfg, s, key, now), |s.incidents|) == Some(i) <==> FoundByKey(cfg, s, key, now, i)
    ensures Latest(s, Carrying(cfg, s, key, now), |s.incidents|).None? <==>
            forall j :: 0 <= j < |s.incidents| ==> !Carries(cfg, s, key, now, j)
  {
    hide Carries, Carrying;
    CarryingIs(cfg, s, key, now);
    InRange(cfg, s, key, now);
    LatestIs(s, Carrying(cfg, s, key, now), |s.incidents|, i);
  }

  lemma InRange(cfg: Config, s: State, key: string, now: Time)
    ensures forall j: Id :: Carries(cfg, s, key, now, j) ==> j < |s.incidents|
  {
    hide Live;
  }

  /** The key an incident on the group's root goes by. */
  function RootName(c: Cluster, root: Alert): string {
    if c.group.inferred
    then c.group.root + ":TopologyCorrelatedDependencyFailure:" + root.environment + ":topology-" + c.group.root
    else root.service + ":" + root.name + ":" + root.environment + ":" + root.fingerprint
  }

  lemma RootKeyIs(c: Cluster, root: Alert)
    ensures RootKey(c, root) == RootName(c, root)
    ensures KeyOf(root) == root.service + ":" + root.name + ":" + root.environment + ":" + root.fingerprint
  {
    var r := c.group.root;
    var a, b := ":" + INFERRED_NAME + ":", ":TopologyCorrelatedDependencyFailure:";
    assert a == b;
    assert r + ":" + INFERRED_NAME + ":" + root.environment + ":" + ("topology-" + r) == r + a + root.environment + (":" + "topology-" + r);
    assert r + b + root.environment + ":topology-" + r == r + b + root.environment + (":" + "topology-" + r);
  }

  /** An incident that is joined keeps everything; one whose root moves takes on the group's root and key and starts no
      later than before. */
  predicate Moved(s: State, t: State, i: Id, c: Cluster, root: Alert) {
    && i < |s.incidents| == |t.incidents| && t.(incidents := s.incidents) == s
    && (forall j :: 0 <= j < |s.incidents| && j != i ==> t.incidents[j] == s.incidents[j])
    && var x := s.incidents[i];
       t.incidents[i] == x.(service := c.group.root, key := RootName(c, root),
                            startedAt := if x.startedAt <= root.startsAt then x.startedAt else root.startsAt)
  }

  predicate Opened(s: State, t: State, c: Cluster, root: Alert, now: Time) {
    && t.(incidents := s.incidents) == s && |t.incidents| == |s.incidents| + 1 && t.incidents[..|s.incidents|] == s.incidents
    && t.incidents[|s.incidents|] ==
       Incident(|s.incidents|, c.group.root, c.environment, RootName(c, root), root.startsAt, false, now, None)
  }

  ghost predicate PlacedAs(
    cfg: Config, g: Deps, s: State, open: seq<Incident>, c: Cluster, root: Alert, now: Time, p: Placement)
  {
    var key := root.service + ":" + root.name + ":" + root.environment + ":" + root.fingerprint;
    if exists j :: 0 <= j < |s.incidents| && Carries(cfg, s, key, now, j) then
      FoundByKey(cfg, s, key, now, p.incident) && p.state == s && !p.created && !p.promoted
    else if Chosen(g, c.group.root, c.environment, open, None) then
      p.created && !p.promoted && p.incident == |s.incidents| && Opened(s, p.state, c, root, now)
    else
      exists r :: ChosenAs(g, s, open, c, root, r, p)
  }

  /** The nearest open incident takes the group; its root moves if it lies above. */
  ghost predicate ChosenAs(g: Deps, s: State, open: seq<Incident>, c: Cluster, root: Alert, r: (nat, bool), p: Placement) {
    && Chosen(g, c.group.root, c.environment, open, Some(r)) && r.0 < |open| && p.incident == open[r.0].id
    && !p.created && p.promoted == r.1 && if r.1 then Moved(s, p.state, p.incident, c, root) else p.state == s
  }

  /** Of two incidents on the root itself and above it, the one on it is chosen, so a root never moves onto itself. */
  lemma MovesFromAbove(g: Deps, root: string, environment: string, open: seq<Incident>, i: nat)
    requires Chosen(g, root, environment, open, Some((i, true)))
    ensures i < |open| && open[i].service != root
  {
    assert !Touches(g, root, environment, open[i], false);
    if open[i].service == root { ReachesSelf(g, root); }
  }

  lemma PlacedExactly(cfg: Config, g: Deps, s: State, open: seq<Incident>, c: Cluster, root: Alert, now: Time)
    requires forall x :: x in open ==> x.id < |s.incidents|
    ensures PlacedAs(cfg, g, s, open, c, root, now, Place(cfg, g, s, open, c, root, now))
  {
    hide Carries, Carrying, Related, Chosen, RootName, RootKey, KeyOf, Latest;
    var p := Place(cfg, g, s, open, c, root, now);
    RootKeyIs(c, root);
    var exact := Latest(s, Carrying(cfg, s, KeyOf(root), now), |s.incidents|);
    LatestCarrying(cfg, s, KeyOf(root), now, if exact.Some? then exact.value else 0);
    if exact.None? {
      var related := Related(g, c.group.root, c.environment, open);
      RelatedIsNearest(g, c.group.root, c.environment, open);
      if related.Some? {
        ChosenInside(g, c.group.root, c.environment, open, related.value);
        if related.value.1 { MovesFromAbove(g, c.group.root, c.environment, open, related.value.0); }
        assert open[related.value.0] in open;
        if Chosen(g, c.group.root, c.environment, open, None) {
          ChosenUnique(g, c.group.root, c.environment, open, related, None);
        }
        assert ChosenAs(g, s, open, c, root, related.value, p);
      }
    }
  }

  lemma ChosenInside(g: Deps, root: string, environment: string, open: seq<Incident>, r: (nat, bool))
    requires Chosen(g, root, environment, open, Some(r))
    ensures r.0 < |open|
  {
  }

  // ----- The open incidents a delivery looks at -----

  predicate Earlier(a: Incident, b: Incident) {
    a.startedAt < b.startedAt || (a.startedAt == b.startedAt && a.id < b.id)
  }

  predicate InOrder(xs: seq<Incident>) { forall i, j :: 0 <= i < j < |xs| ==> Earlier(xs[i], xs[j]) }

  lemma {:induction false} InsertHas(x: Incident, xs: seq<Incident>)
    ensures forall y :: y in InsertByStart(x, xs) <==> y == x || y in xs
  {
    if |xs| > 0 {
      assert xs == [xs[0]] + xs[1..];
      InsertHas(x, xs[1..]);
    }
  }

  lemma {:induction false} InsertInOrder(x: Incident, xs: seq<Incident>)
    requires InOrder(xs) && forall y :: y in xs ==> x.id < y.id
    ensures InOrder(InsertByStart(x, xs))
  {
    if |xs| > 0 {
      var rest := InsertByStart(x, xs[1..]);
      InsertHas(x, xs[1..]);
      forall y | y in xs[1..] ensures Earlier(xs[0], y) {
        var k :| 0 <= k < |xs[1..]| && xs[1..][k] == y;
        assert Earlier(xs[0], xs[k + 1]);
      }
      if x.startedAt > xs[0].startedAt {
        InsertInOrder(x, xs[1..]);
        forall j | 0 <= j < |rest| ensures Earlier(xs[0], rest[j]) { assert rest[j] in rest; }
        assert InsertByStart(x, xs) == [xs[0]] + rest;
      } else {
        forall j | 0 <= j < |xs| ensures Earlier(x, xs[j]) { assert xs[j] in xs && (j > 0 ==> Earlier(xs[0], xs[j])); }
      }
    }
  }

  /** A delivery looks at exactly the live incidents, each once, by start time and then age. */
  lemma {:induction false} OpenAreTheLive(cfg: Config, s: State, n: nat, now: Time)
    requires n <= |s.incidents| && forall i :: 0 <= i < |s.incidents| ==> s.incidents[i].id == i
    ensures InOrder(OpenFrom(cfg, s, n, now))
    ensures forall x :: x in OpenFrom(cfg, s, n, now) <==>
                        n <= x.id < |s.incidents| && x == s.incidents[x.id] && Live(cfg, s, x.id, now)
    decreases |s.incidents| - n
  {
    hide Active, Live;
    if n < |s.incidents| {
      var rest := OpenFrom(cfg, s, n + 1, now);
      OpenAreTheLive(cfg, s, n + 1, now);
      ActiveIsLive(cfg, s, n, now);
      if Active(cfg, s, n, now) {
        InsertInOrder(s.incidents[n], rest);
        InsertHas(s.incidents[n], rest);
      }
    }
  }
}
