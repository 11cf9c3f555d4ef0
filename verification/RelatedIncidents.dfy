/** The open incident a group joins is the closest one in the graph, and joining prefers the incident further down. */
module RelatedIncidents {
  import opened Text
  import opened Walks
  import opened Incidents

  /** In the group's environment and, going down, a dependency of its root; otherwise a service that depends on it. */
  ghost predicate Touches(g: Deps, root: string, environment: string, x: Incident, above: bool) {
    x.environment == environment && if above then Reaches(g, x.service, root) else Reaches(g, root, x.service)
  }

  ghost function Away(g: Deps, root: string, environment: string, x: Incident, above: bool): nat
    requires Touches(g, root, environment, x, above)
  {
    if above then Distance(g, x.service, root) else Distance(g, root, x.service)
  }

  /** The nearest of the first n open incidents on that side, the earliest winning a tie. */
  ghost predicate Nearest(g: Deps, root: string, environment: string, open: seq<Incident>, n: nat, i: nat, above: bool)
    requires n <= |open|
  {
    && i < n && Touches(g, root, environment, open[i], above)
    && forall j :: 0 <= j < n && Touches(g, root, environment, open[j], above) ==>
         var near, far := Away(g, root, environment, open[i], above), Away(g, root, environment, open[j], above);
         near < far || (near == far && i <= j)
  }

  ghost predicate Untouched(g: Deps, root: string, environment: string, open: seq<Incident>, n: nat, above: bool)
    requires n <= |open|
  {
    forall j :: 0 <= j < n ==> !Touches(g, root, environment, open[j], above)
  }

  ghost predicate Tracks(
    g: Deps, root: string, environment: string, open: seq<Incident>, n: nat, best: Option<(nat, nat)>, above: bool)
    requires n <= |open|
  {
    match best
    case None => Untouched(g, root, environment, open, n, above)
    case Some((i, d)) =>
      Nearest(g, root, environment, open, n, i, above) && d == Away(g, root, environment, open[i], above)
  }

  lemma TrackNext(
    g: Deps, root: string, environment: string, open: seq<Incident>, n: nat, best: Option<(nat, nat)>, above: bool)
    requires n < |open| && Tracks(g, root, environment, open, n, best, above)
    ensures open[n].environment != environment ==> Tracks(g, root, environment, open, n + 1, best, above)
    ensures open[n].environment == environment ==>
              Tracks(g, root, environment, open, n + 1,
                     if above then Nearer(g, open[n].service, root, n, best)
                     else Nearer(g, root, open[n].service, n, best), above)
  {
    hide Reaches, Distance;
  }

  ghost predicate ScanHolds(g: Deps, root: string, environment: string, open: seq<Incident>, n: nat, scan: Scan)
    requires n <= |open|
  {
    match scan.same
    case Some(i) => Nearest(g, root, environment, open, n, i, false)
    case None =>
      && (forall j :: 0 <= j < n && open[j].environment == environment ==> open[j].service != root)
      && Tracks(g, root, environment, open, n, scan.up, false) && Tracks(g, root, environment, open, n, scan.down, true)
  }

  /** The first incident on the root itself is nearer than anything before it and no later one is nearer still. */
  lemma SameIsNearest(g: Deps, root: string, environment: string, open: seq<Incident>, n: nat, i: nat)
    requires i < n <= |open| && open[i].environment == environment && open[i].service == root
    requires forall j :: 0 <= j < i && open[j].environment == environment ==> open[j].service != root
    ensures Nearest(g, root, environment, open, n, i, false)
  {
    hide Reaches, Distance;
    ReachesSelf(g, root);
    DistanceToSelf(g, root, root);
    forall j | 0 <= j < n && Touches(g, root, environment, open[j], false)
      ensures 0 < Away(g, root, environment, open[j], false) || i <= j {
      DistanceToSelf(g, root, open[j].service);
    }
  }

  lemma NearestStays(g: Deps, root: string, environment: string, open: seq<Incident>, n: nat, i: nat)
    requires n < |open| && Nearest(g, root, environment, open, n, i, false) && open[i].service == root
    ensures Nearest(g, root, environment, open, n + 1, i, false)
  {
    hide Reaches, Distance;
    DistanceToSelf(g, root, root);
  }

  lemma {:induction false} ScanIsNearest(g: Deps, root: string, environment: string, open: seq<Incident>, n: nat)
    requires n <= |open|
    ensures var scan := ScanOpen(g, root, environment, open, n);
            ScanHolds(g, root, environment, open, n, scan) && (scan.same.Some? ==> open[scan.same.value].service == root)
  {
    hide Nearest, Tracks, Nearer;
    if n > 0 {
      ScanIsNearest(g, root, environment, open, n - 1);
      var before := ScanOpen(g, root, environment, open, n - 1);
      if before.same.Some? {
        NearestStays(g, root, environment, open, n - 1, before.same.value);
      } else {
        TrackNext(g, root, environment, open, n - 1, before.up, false);
        TrackNext(g, root, environment, open, n - 1, before.down, true);
        if open[n - 1].environment == environment && open[n - 1].service == root {
          SameIsNearest(g, root, environment, open, n, n - 1);
        }
      }
    } else {
      NothingTracked(g, root, environment, open);
    }
  }

  lemma NothingTracked(g: Deps, root: string, environment: string, open: seq<Incident>)
    ensures Tracks(g, root, environment, open, 0, None, false) && Tracks(g, root, environment, open, 0, None, true)
  {
  }

  /** The chosen incident is the nearest one the group's root depends on or sits on; only where there is none, the
      nearest one that depends on the root, whose root then moves; and where there is neither, no incident. */
  ghost predicate Chosen(g: Deps, root: string, environment: string, open: seq<Incident>, r: Option<(nat, bool)>) {
    var n := |open|;
    match r
    case None => Untouched(g, root, environment, open, n, false) && Untouched(g, root, environment, open, n, true)
    case Some((i, moves)) =>
      Nearest(g, root, environment, open, n, i, moves) && (moves ==> Untouched(g, root, environment, open, n, false))
  }

  lemma RelatedIsNearest(g: Deps, root: string, environment: string, open: seq<Incident>)
    ensures Chosen(g, root, environment, open, Related(g, root, environment, open))
  {
    hide Nearest, Touches, ScanOpen;
    ScanIsNearest(g, root, environment, open, |open|);
  }

  /** There is only one such choice. */
  lemma ChosenUnique(
    g: Deps, root: string, environment: string, open: seq<Incident>, a: Option<(nat, bool)>, b: Option<(nat, bool)>)
    requires Chosen(g, root, environment, open, a) && Chosen(g, root, environment, open, b)
    ensures a == b
  {
    hide Reaches, Distance;
    if a.Some? && b.Some? {
      assert Touches(g, root, environment, open[a.value.0], a.value.1);
      assert Touches(g, root, environment, open[b.value.0], b.value.1);
    }
  }
}
