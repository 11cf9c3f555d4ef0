/** What a resolved notification does, stated on the tables: which incident it goes to, and when that incident is
    stamped as having nothing left that fires. */
module ResolvedAlerts {
  import opened Text
  import opened Walks
  import opened Topology
  import opened Incidents

  // ----- Which incident -----

  predicate FiresOn(s: State, i: Id, key: string) {
    i < |s.incidents| && !s.incidents[i].closed && (i, key) in s.attached && s.attached[(i, key)].firing
  }

  /** The open incident on which the alert fires that was seen last, and of several the oldest. */
  predicate GoesTo(s: State, key: string, i: Id) {
    && FiresOn(s, i, key)
    && forall j :: 0 <= j < |s.incidents| && j != i && FiresOn(s, j, key) ==>
         s.incidents[j].lastSeen < s.incidents[i].lastSeen || (s.incidents[j].lastSeen == s.incidents[i].lastSeen && i < j)
  }

  lemma {:induction false} LatestIs(s: State, matching: set<Id>, n: nat, i: Id)
    requires n <= |s.incidents|
    ensures Latest(s, matching, n) == Some(i) <==>
            && i in matching && i < n
            && forall j :: 0 <= j < n && j != i && j in matching ==>
                 s.incidents[j].lastSeen < s.incidents[i].lastSeen || (s.incidents[j].lastSeen == s.incidents[i].lastSeen && i < j)
  {
    if n > 0 {
      LatestIs(s, matching, n - 1, i);
      var best := Latest(s, matching, n - 1);
      if best.Some? { LatestIs(s, matching, n - 1, best.value); }
    }
  }

  lemma FoundIs(s: State, key: string, i: Id)
    ensures Latest(s, FiringOn(s, key), |s.incidents|) == Some(i) <==> GoesTo(s, key, i)
  {
    LatestIs(s, FiringOn(s, key), |s.incidents|, i);
    assert forall j: Id :: j in FiringOn(s, key) <==> FiresOn(s, j, key);
  }

  lemma NothingFound(s: State, key: string)
    ensures Latest(s, FiringOn(s, key), |s.incidents|).None? <==> forall i :: 0 <= i < |s.incidents| ==> !FiresOn(s, i, key)
  {
    var found := Latest(s, FiringOn(s, key), |s.incidents|);
    assert forall j: Id :: j in FiringOn(s, key) <==> FiresOn(s, j, key);
  }

  // ----- The stamp -----

  /** Some alert of the incident fires and was seen within the staleness bound. */
  predicate Fresh(cfg: Config, s: State, i: Id, now: Time) {
    exists k :: k in s.attached && k.0 == i && s.attached[k].firing && s.attached[k].lastSeen + cfg.staleAfter >= now
  }

  /** The notification marks its alert resolved on the incident it goes to and is kept there as evidence. If that leaves
      nothing fresh the incident ends stamped, with the time of the first such notification. */
  predicate Resolves(cfg: Config, s: State, a: Alert, now: Time, i: Id, t: State) {
    && i < |s.incidents| && (i, KeyOf(a)) in s.attached
    && t.attached == s.attached[(i, KeyOf(a)) := s.attached[(i, KeyOf(a))].(firing := false, lastSeen := now)]
    && t.signals == s.signals + [Signal(i, a, false, "", [])] && t.edges == s.edges && t.clock == s.clock
    && |t.incidents| == |s.incidents| && (forall j :: 0 <= j < |s.incidents| && j != i ==> t.incidents[j] == s.incidents[j])
    && t.incidents[i].(clearedAt := None) == s.incidents[i].(lastSeen := now, clearedAt := None)
    && t.incidents[i].clearedAt ==
       if Fresh(cfg, t, i, now) || s.incidents[i].clearedAt.Some? then s.incidents[i].clearedAt else Some(now)
  }

  /** A resolved notification goes to the incident on which its alert fires, and changes nothing where there is none. */
  lemma ResolvedStampsTheLast(cfg: Config, s: State, a: Alert, now: Time, i: Id)
    ensures GoesTo(s, KeyOf(a), i) ==> Resolves(cfg, s, a, now, i, Resolve(cfg, s, a, now))
    ensures (forall j :: 0 <= j < |s.incidents| ==> !FiresOn(s, j, KeyOf(a))) ==> Resolve(cfg, s, a, now) == s
  {
    hide KeyOf, Latest, FiringOn, StillFiring, Fresh;
    FoundIs(s, KeyOf(a), i);
    NothingFound(s, KeyOf(a));
    if GoesTo(s, KeyOf(a), i) {
      var resolved := MarkResolved(AddSignal(s, Signal(i, a, false, "", [])), i, KeyOf(a), now);
      var t := Resolve(cfg, s, a, now);
      FreshIs(cfg, resolved, i, now);
      FreshIs(cfg, t, i, now);
      SameRowsSameFresh(cfg, resolved, t, i, now);
    }
  }

  lemma FreshIs(cfg: Config, s: State, i: Id, now: Time)
    ensures StillFiring(cfg, s, i, now) <==> Fresh(cfg, s, i, now)
  {
    if StillFiring(cfg, s, i, now) {
      var k :| k in s.attached && k.0 == i && FreshFiring(cfg, s, i, k.1, now);
      assert k == (i, k.1);
    }
    if Fresh(cfg, s, i, now) {
      var k :| k in s.attached && k.0 == i && s.attached[k].firing && s.attached[k].lastSeen + cfg.staleAfter >= now;
      assert k == (i, k.1) && FreshFiring(cfg, s, i, k.1, now);
    }
  }

  /** The two states have the same alerts attached to the incident. */
  predicate SameRows(s: State, t: State, i: Id) {
    && (forall k :: k in s.attached && k.0 == i ==> k in t.attached && t.attached[k] == s.attached[k])
    && (forall k :: k in t.attached && k.0 == i ==> k in s.attached)
  }

  lemma SameRowsSameFresh(cfg: Config, s: State, t: State, i: Id, now: Time)
    requires SameRows(s, t, i)
    ensures Fresh(cfg, s, i, now) <==> Fresh(cfg, t, i, now)
  {
  }

  // ----- A whole delivery -----

  /** Among the signals from the m-th on, one that says an alert of this incident is resolved, or fires. */
  predicate Heard(s: State, m: nat, i: Id, firing: bool) {
    exists n :: m <= n < |s.signals| && s.signals[n].incident == i && s.signals[n].firing == firing
  }

  /** An incident that was sent a resolution and has nothing fresh left is stamped; one that was sent nothing keeps its
      stamp, and a stamp is never replaced. */
  predicate Stamps(cfg: Config, s0: State, s: State, i: Id, now: Time)
    requires i < |s0.incidents| <= |s.incidents|
  {
    && (Heard(s, |s0.signals|, i, false) && !Fresh(cfg, s, i, now) ==>
          s.incidents[i].clearedAt == if s0.incidents[i].clearedAt.Some? then s0.incidents[i].clearedAt else Some(now))
    && (!Heard(s, |s0.signals|, i, false) ==> s.incidents[i].clearedAt == s0.incidents[i].clearedAt && SameRows(s0, s, i))
    && (s.incidents[i].clearedAt == s0.incidents[i].clearedAt ||
        (s0.incidents[i].clearedAt.None? && s.incidents[i].clearedAt == Some(now)))
  }

  lemma ResolveStamps(cfg: Config, s0: State, s: State, a: Alert, i: Id, now: Time)
    requires i < |s0.incidents| <= |s.incidents| && |s0.signals| <= |s.signals| && Stamps(cfg, s0, s, i, now)
    ensures var t := Resolve(cfg, s, a, now);
            |s.incidents| <= |t.incidents| && |s.signals| <= |t.signals| && Stamps(cfg, s0, t, i, now)
  {
    hide Resolve, Fresh, KeyOf;
    var t := Resolve(cfg, s, a, now);
    var found := Latest(s, FiringOn(s, KeyOf(a)), |s.incidents|);
    NothingFound(s, KeyOf(a));
    if found.None? {
      ResolvedStampsTheLast(cfg, s, a, now, 0);
    } else {
      var j := found.value;
      FoundIs(s, KeyOf(a), j);
      ResolvedStampsTheLast(cfg, s, a, now, j);
      if j == i { HeardNow(s, t, |s0.signals|, i); }
      else {
        HeardBefore(s, t, |s0.signals|, i);
        SameRowsSameFresh(cfg, s, t, i, now);
      }
    }
  }

  lemma HeardNow(s: State, t: State, m: nat, i: Id)
    requires m <= |s.signals| < |t.signals| && t.signals[|s.signals|].incident == i && !t.signals[|s.signals|].firing
    ensures Heard(t, m, i, false)
  {
  }

  lemma HeardBefore(s: State, t: State, m: nat, i: Id)
    requires |t.signals| == |s.signals| + 1 && t.signals[..|s.signals|] == s.signals && t.signals[|s.signals|].incident != i
    ensures Heard(t, m, i, false) <==> Heard(s, m, i, false)
  {
    assert forall n :: 0 <= n < |s.signals| ==> t.signals[n] == s.signals[n];
  }

  lemma {:induction false} ResolveAllStamps(cfg: Config, p: Progress, alerts: seq<Alert>, i: Id, now: Time)
    requires i < |p.state.incidents|
    ensures var s := ResolveAll(cfg, p, alerts, now).state;
            && |p.state.incidents| <= |s.incidents| && |p.state.signals| <= |s.signals|
            && Stamps(cfg, p.state, s, i, now)
  {
    hide Stamps, Resolve;
    if |alerts| == 0 {
      NothingStamps(cfg, p.state, i, now);
    } else {
      var n := |alerts| - 1;
      ResolveAllStamps(cfg, p, alerts[..n], i, now);
      ResolveStamps(cfg, p.state, ResolveAll(cfg, p, alerts[..n], now).state, alerts[n], i, now);
    }
  }

  lemma NothingStamps(cfg: Config, s: State, i: Id, now: Time)
    requires i < |s.incidents|
    ensures Stamps(cfg, s, s, i, now)
  {
    hide Fresh;
  }

  /** Firing notifications leave an incident alone that none of them goes to. */
  predicate LeftAlone(s: State, t: State, i: Id)
    requires i < |s.incidents|
  {
    i < |t.incidents| && t.incidents[i].clearedAt == s.incidents[i].clearedAt && SameRows(s, t, i)
  }

  /** More signals, and all those that were there. */
  predicate MoreSignals(s: State, t: State) {
    s.signals <= t.signals && forall n :: |s.signals| <= n < |t.signals| ==> t.signals[n].firing
  }

  lemma {:induction false} AttachAllAlone(g: Deps, p: Progress, i: Id, alerts: seq<Alert>, now: Time, j: Id)
    requires i < |p.state.incidents| && j < |p.state.incidents| && i != j
    ensures LeftAlone(p.state, AttachAll(g, p, i, alerts, now).state, j)
  {
    hide PathFor, KeyOf;
    if |alerts| > 0 { AttachAllAlone(g, p, i, alerts[..|alerts| - 1], now, j); }
  }

  lemma {:induction false} AttachAllSignals(g: Deps, p: Progress, i: Id, alerts: seq<Alert>, now: Time)
    requires i < |p.state.incidents|
    ensures MoreSignals(p.state, AttachAll(g, p, i, alerts, now).state)
    ensures |alerts| > 0 ==> Heard(AttachAll(g, p, i, alerts, now).state, |p.state.signals|, i, true)
  {
    hide PathFor, KeyOf;
    if |alerts| > 0 {
      var n := |alerts| - 1;
      AttachAllSignals(g, p, i, alerts[..n], now);
      var before, after := AttachAll(g, p, i, alerts[..n], now).state, AttachAll(g, p, i, alerts, now).state;
      assert after.signals == before.signals + [after.signals[|before.signals|]];
    }
  }

  lemma PlaceLeavesAlone(cfg: Config, g: Deps, s: State, open: seq<Incident>, c: Cluster, root: Alert, now: Time, i: Id)
    requires i < |s.incidents|
    ensures var placed := Place(cfg, g, s, open, c, root, now);
            && LeftAlone(s, placed.state, i) && placed.state.signals == s.signals
            && placed.incident < |placed.state.incidents| && |s.incidents| <= |placed.state.incidents|
            && (placed.created || placed.incident < |s.incidents|)
  {
    hide Related, Carrying;
  }

  lemma ClusterLeavesAlone(cfg: Config, g: Deps, p: Progress, alerts: seq<Alert>, c: Cluster, now: Time, i: Id)
    requires i < |p.state.incidents|
    ensures var t := IngestCluster(cfg, g, p, alerts, c, now).state;
            && |p.state.incidents| <= |t.incidents| && MoreSignals(p.state, t)
            && (!Heard(t, |p.state.signals|, i, true) ==> LeftAlone(p.state, t, i))
  {
    hide Place, AttachAll, AlertsFor, RootAlert, AppendOrReplace, RootUnseen, Heard, LeftAlone;
    var mine := AlertsFor(alerts, c);
    if |mine| == 0 {
      SelfAlone(p.state, i);
    } else {
      var root := RootAlert(mine, c.group.root);
      var placed := Place(cfg, g, p.state, p.open, c, root, now);
      PlaceLeavesAlone(cfg, g, p.state, p.open, c, root, now, i);
      var j := placed.incident;
      var inferred := if placed.created || placed.promoted then c.group.inferred else RootUnseen(p.state, j);
      var start := Progress(placed.state, p.open, CountGroup(p.stats, c, inferred));
      AttachAllSignals(g, start, j, mine, now);
      if i != j {
        AttachAllAlone(g, start, j, mine, now, i);
        AloneTwice(p.state, placed.state, AttachAll(g, start, j, mine, now).state, i);
      }
    }
  }

  lemma SelfAlone(s: State, i: Id)
    requires i < |s.incidents|
    ensures LeftAlone(s, s, i)
  {
  }

  lemma AloneTwice(s: State, t: State, u: State, i: Id)
    requires i < |s.incidents| && i < |t.incidents| && LeftAlone(s, t, i) && LeftAlone(t, u, i)
    ensures LeftAlone(s, u, i)
  {
  }

  lemma {:induction false} ClustersLeaveAlone(
    cfg: Config, g: Deps, p: Progress, alerts: seq<Alert>, cs: seq<Cluster>, now: Time, i: Id)
    requires i < |p.state.incidents|
    ensures var t := IngestClusters(cfg, g, p, alerts, cs, now).state;
            && |p.state.incidents| <= |t.incidents| && MoreSignals(p.state, t)
            && (!Heard(t, |p.state.signals|, i, true) ==> LeftAlone(p.state, t, i))
  {
    hide IngestCluster, LeftAlone;
    if |cs| == 0 {
      SelfAlone(p.state, i);
    } else {
      var n := |cs| - 1;
      var q := IngestClusters(cfg, g, p, alerts, cs[..n], now);
      ClustersLeaveAlone(cfg, g, p, alerts, cs[..n], now, i);
      ClusterLeavesAlone(cfg, g, q, alerts, cs[n], now, i);
      var t := IngestClusters(cfg, g, p, alerts, cs, now).state;
      if !Heard(t, |p.state.signals|, i, true) {
        assert forall k :: 0 <= k < |q.state.signals| ==> q.state.signals[k] == t.signals[k];
        assert !Heard(q.state, |p.state.signals|, i, true) && !Heard(t, |q.state.signals|, i, true);
        AloneTwice(p.state, q.state, t, i);
      }
    }
  }

  /** An incident whose last fresh alert a delivery resolves, and to which none of the delivery's firing alerts goes,
      ends stamped, with the delivery's time unless it was stamped before; one the delivery says nothing about keeps
      its stamp as it was. */
  lemma LastResolutionStamps(
    cfg: Config, s: State, resolved: seq<Alert>, firing: seq<Alert>, cs: seq<Cluster>, now: Time, i: Id)
    requires i < |s.incidents|
    requires !Heard(Ingest(cfg, s, resolved, firing, cs, now).state, |s.signals|, i, true)
    ensures var t := Ingest(cfg, s, resolved, firing, cs, now).state;
            && |s.incidents| <= |t.incidents|
            && (Heard(t, |s.signals|, i, false) && !Fresh(cfg, t, i, now) ==>
                  t.incidents[i].clearedAt == if s.incidents[i].clearedAt.Some? then s.incidents[i].clearedAt else Some(now))
            && (!Heard(t, |s.signals|, i, false) ==> t.incidents[i].clearedAt == s.incidents[i].clearedAt)
  {
    hide ResolveAll, IngestClusters, OpenFrom, Fresh, SameRows;
    var start := Progress(s, [], Stats(|firing|, 0, 0, 0, 0, 0, 0, 0, 0));
    ResolveAllStamps(cfg, start, resolved, i, now);
    var p := ResolveAll(cfg, start, resolved, now);
    if |firing| > 0 {
      var q := p.(open := OpenFrom(cfg, p.state, 0, now));
      ClustersLeaveAlone(cfg, GraphOf(s.edges), q, firing, cs, now, i);
      var t := Ingest(cfg, s, resolved, firing, cs, now).state;
      assert !Heard(t, |p.state.signals|, i, true);
      assert forall k :: 0 <= k < |p.state.signals| ==> p.state.signals[k] == t.signals[k];
      assert Heard(t, |s.signals|, i, false) ==> Heard(p.state, |s.signals|, i, false);
      assert Heard(p.state, |s.signals|, i, false) ==> Heard(t, |s.signals|, i, false);
      SameRowsSameFresh(cfg, p.state, t, i, now);
    }
  }
}
