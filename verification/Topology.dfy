/** The service graph: built from dependency edges, searched for paths, and used to group alerted services. */
module Topology {
  import opened Text
  import opened Walks
  import opened PathSearch
  import opened Grouping

  datatype Edge = Edge(service: string, dependsOn: string)

  predicate Usable(e: Edge) { e.service != "" && e.dependsOn != "" && e.service != e.dependsOn }

  /** What a service depends on, according to the usable edges. */
  function DependenciesOf(edges: seq<Edge>, s: string): set<string> {
    set e | e in edges && Usable(e) && e.service == s :: e.dependsOn
  }

  lemma OneMoreEdge(edges: seq<Edge>, e: Edge, s: string)
    ensures DependenciesOf(edges + [e], s) ==
            DependenciesOf(edges, s) + if Usable(e) && e.service == s then {e.dependsOn} else {}
  {
    assert forall x :: x in edges + [e] <==> x in edges || x == e;
  }

  // ----- Sorting -----

  function Insert(x: string, xs: seq<string>): seq<string> {
    if |xs| == 0 then [x] else if !Less(xs[0], x) then [x] + xs else [xs[0]] + Insert(x, xs[1..])
  }

  /** sort.Strings */
  function SortStrings(xs: seq<string>): seq<string> {
    if |xs| == 0 then [] else Insert(xs[0], SortStrings(xs[1..]))
  }

  predicate Distinct(xs: seq<string>) { forall i, j :: 0 <= i < j < |xs| ==> xs[i] != xs[j] }

  lemma {:induction false} InsertElements(x: string, xs: seq<string>)
    ensures Elements(Insert(x, xs)) == Elements(xs) + {x}
  {
    if |xs| > 0 {
      assert xs == [xs[0]] + xs[1..];
      ElementsConcat([xs[0]], xs[1..]);
      if Less(xs[0], x) {
        InsertElements(x, xs[1..]);
        ElementsConcat([xs[0]], Insert(x, xs[1..]));
      } else {
        ElementsConcat([x], xs);
      }
    }
  }

  lemma {:induction false} InsertSorts(x: string, xs: seq<string>)
    requires StrictlySorted(xs) && x !in xs
    ensures StrictlySorted(Insert(x, xs))
  {
    if |xs| > 0 {
      LessTotal(x, xs[0]);
      if Less(xs[0], x) {
        InsertSorts(x, xs[1..]);
        InsertElements(x, xs[1..]);
        var rest := Insert(x, xs[1..]);
        forall k | 0 <= k < |rest| ensures Less(xs[0], rest[k]) { assert rest[k] in Elements(rest); }
      } else {
        forall i | 0 < i < |xs| ensures Less(x, xs[i]) { LessTransitive(x, xs[0], xs[i]); }
      }
    }
  }

  lemma {:induction false} SortStringsSorts(xs: seq<string>)
    requires Distinct(xs)
    ensures StrictlySorted(SortStrings(xs)) && Elements(SortStrings(xs)) == Elements(xs)
  {
    if |xs| > 0 {
      SortStringsSorts(xs[1..]);
      var rest := SortStrings(xs[1..]);
      assert xs[0] !in Elements(rest);
      InsertSorts(xs[0], rest);
      InsertElements(xs[0], rest);
      ElementsConcat([xs[0]], xs[1..]);
      assert xs == [xs[0]] + xs[1..];
    }
  }

  /** The keys of a map in order; the walk itself is in no particular order. */
  method SortedKeys(values: set<string>) returns (keys: seq<string>)
    ensures StrictlySorted(keys) && Elements(keys) == values
  {
    var items: seq<string> := [];
    var left := values;
    while left != {}
      invariant left <= values && Distinct(items) && Elements(items) == values - left
      decreases left
    {
      var v :| v in left;
      assert v !in Elements(items);
      ElementsConcat(items, [v]);
      items := items + [v];
      left := left - {v};
    }
    SortStringsSorts(items);
    keys := SortStrings(items);
  }

  function AppendUnique(values: seq<string>, value: string): seq<string> {
    if value in values then values else values + [value]
  }

  // ----- Building the graph -----

  /** Dependency lists in the order the edges first name them. */
  function Lists(edges: seq<Edge>): Deps {
    if |edges| == 0 then map[]
    else
      var lists, e := Lists(edges[..|edges| - 1]), edges[|edges| - 1];
      if Usable(e) then lists[e.service := AppendUnique(Adjacent(lists, e.service), e.dependsOn)] else lists
  }

  function SortedLists(lists: Deps): Deps { map s | s in lists :: SortStrings(lists[s]) }

  /** The graph of a set of edges. */
  function GraphOf(edges: seq<Edge>): Deps { SortedLists(Lists(edges)) }

  predicate Raw(lists: Deps) { forall s :: s in lists ==> Distinct(lists[s]) && s != "" && "" !in lists[s] }

  lemma {:induction false} ListsMatchEdges(edges: seq<Edge>, s: string)
    ensures Raw(Lists(edges)) && Elements(Adjacent(Lists(edges), s)) == DependenciesOf(edges, s)
  {
    if |edges| > 0 {
      var front, e := edges[..|edges| - 1], edges[|edges| - 1];
      ListsMatchEdges(front, s);
      OneMoreEdge(front, e, s);
      assert edges == front + [e];
      ElementsConcat(Adjacent(Lists(front), e.service), [e.dependsOn]);
    }
  }

  /** Every list is sorted, free of duplicates, and holds exactly what the usable edges name. */
  lemma GraphMatchesEdges(edges: seq<Edge>)
    ensures WellFormed(GraphOf(edges))
    ensures forall s :: Elements(Adjacent(GraphOf(edges), s)) == DependenciesOf(edges, s)
  {
    ListsMatchEdges(edges, "");
    var lists := Lists(edges);
    forall s | s in lists ensures StrictlySorted(SortStrings(lists[s])) && "" !in SortStrings(lists[s]) {
      SortStringsSorts(lists[s]);
      assert "" !in Elements(SortStrings(lists[s]));
    }
    forall s ensures Elements(Adjacent(GraphOf(edges), s)) == DependenciesOf(edges, s) {
      ListsMatchEdges(edges, s);
      if s in lists { SortStringsSorts(lists[s]); }
    }
  }

  // ----- The graph -----

  /** Every name a walk can step to. */
  function Targets(g: Deps): set<string> { set s, x | s in g && x in g[s] :: x }

  lemma NearIsTarget(g: Deps, s: string, n: nat)
    requires n < |Adjacent(g, s)|
    ensures Adjacent(g, s)[n] in Targets(g)
  {
    assert Adjacent(g, s)[n] in g[s];
  }

  datatype Stop = Stop(service: string, path: seq<string>)

  /** The queue holds the discovered paths from this index on. */
  predicate Queued(queue: seq<Stop>, seen: Paths, from: nat) {
    && |seen| == from + |queue|
    && forall j :: from <= j < |seen| ==> |seen[j]| > 0 && queue[j - from] == Stop(Last(seen[j]), seen[j])
  }

  lemma LessLeft(all: set<string>, before: set<string>, after: set<string>)
    requires before <= after <= all
    ensures before == after || all - after < all - before
  {
    if before != after {
      var x :| x in after && x !in before;
      assert x in all - before && x !in all - after;
    }
  }

  lemma PopQueue(queue: seq<Stop>, seen: Paths, from: nat)
    requires Queued(queue, seen, from) && |queue| > 0
    ensures Queued(queue[1..], seen, from + 1)
    ensures from < |seen| && |seen[from]| > 0 && queue[0] == Stop(Last(seen[from]), seen[from])
  {
  }

  lemma PushQueue(queue: seq<Stop>, seen: Paths, from: nat, c: Stop)
    requires Queued(queue, seen, from) && |c.path| > 0 && c.service == Last(c.path)
    ensures Queued(queue + [c], seen + [c.path], from)
  {
  }

  lemma QueueSize(queue: seq<Stop>, seen: Paths, from: nat)
    requires Queued(queue, seen, from)
    ensures |seen| == from + |queue|
  {
  }

  /** Everything reachable from inside a set that steps never leave is in it. */
  lemma {:induction false} ClosedUnderSteps(g: Deps, closed: set<string>, p: seq<string>)
    requires IsWalk(g, p) && p[0] in closed && forall x :: x in closed ==> Elements(Adjacent(g, x)) <= closed
    ensures Last(p) in closed
  {
    if |p| > 1 {
      assert p[1] in Adjacent(g, p[0]) && p[1] in Elements(Adjacent(g, p[0]));
      assert IsWalk(g, p[1..]) by {
        forall i | 0 <= i < |p[1..]| - 1 ensures p[1..][i + 1] in Adjacent(g, p[1..][i]) {
          assert p[i + 1 + 1] in Adjacent(g, p[i + 1]);
        }
      }
      ClosedUnderSteps(g, closed, p[1..]);
    }
  }

  lemma ReachesStep(g: Deps, a: string, b: string, c: string)
    requires Reaches(g, a, b) && c in Adjacent(g, b)
    ensures Reaches(g, a, c)
  {
    assert Connects(g, b, c, [b, c]);
    ReachesTransitive(g, a, b, c);
  }

  lemma OneMoreService(g: Deps, u: set<string>, s: string)
    ensures forall r :: Candidate(g, u + {s}, r) <==> Candidate(g, u, r) || Reaches(g, s, r)
  {
    forall r | Candidate(g, u + {s}, r) ensures Candidate(g, u, r) || Reaches(g, s, r) {
      var x :| x in u + {s} && Reaches(g, x, r);
    }
    forall r | Candidate(g, u, r) || Reaches(g, s, r) ensures Candidate(g, u + {s}, r) {
      if Candidate(g, u, r) {
        var x :| x in u && Reaches(g, x, r);
        assert x in u + {s};
      } else {
        assert s in u + {s};
      }
    }
  }

  /** A strictly sorted list is as long as its set is large. */
  lemma {:induction false} SortedSize(xs: seq<string>)
    requires StrictlySorted(xs)
    ensures |Elements(xs)| == |xs|
  {
    if |xs| > 0 {
      TailElements(xs);
      SortedSize(xs[1..]);
      assert xs[0] in Elements(xs);
    }
  }

  lemma CandidateCovers(g: Deps, u: set<string>, root: string, members: seq<string>)
    requires Candidate(g, u, root) && Elements(members) == Members(g, root, u)
    ensures |members| > 0
  {
    var s :| s in u && Reaches(g, s, root);
    assert s in Elements(members);
  }

  lemma SomeCandidate(g: Deps, u: set<string>)
    requires u != {}
    ensures exists r :: Candidate(g, u, r)
  {
    var s :| s in u;
    ReachesSelf(g, s);
    assert Candidate(g, u, s);
  }

  ghost predicate Measured(
    g: Deps, alerted: set<string>, u: set<string>, r: string, members: seq<string>, distance: nat, isAlerted: bool)
  {
    && StrictlySorted(members) && Elements(members) == Members(g, r, u) && |members| == |Members(g, r, u)| > 0
    && distance == Total(g, r, Members(g, r, u)) && isAlerted == (r in alerted)
  }

  lemma MeasuredRoot(g: Deps, alerted: set<string>, u: set<string>, r: string, members: seq<string>, distance: nat)
    requires StrictlySorted(members) && Elements(members) == Members(g, r, u) && |members| > 0
    requires distance == Total(g, r, Members(g, r, u))
    ensures Measured(g, alerted, u, r, members, distance, r in alerted)
  {
    SortedSize(members);
  }

  /** The scan has seen the first i candidates and holds the best of them. */
  ghost predicate Scanned(
    g: Deps, alerted: set<string>, u: set<string>, candidates: seq<string>, i: nat,
    best: string, members: seq<string>, distance: nat, isAlerted: bool)
  {
    && i <= |candidates|
    && if i == 0 then best == "" && members == [] && distance == 0 && !isAlerted
       else
         && best in candidates[..i] && Measured(g, alerted, u, best, members, distance, isAlerted)
         && forall j :: 0 <= j < i && candidates[j] != best ==> Beats(g, alerted, u, best, candidates[j])
  }

  lemma ScanStart(g: Deps, alerted: set<string>, u: set<string>, candidates: seq<string>)
    ensures Scanned(g, alerted, u, candidates, 0, "", [], 0, false)
  {
  }

  /** A root that beats the best one so far beats everything before it too; one that does not is beaten by it. */
  lemma BestSoFar(g: Deps, alerted: set<string>, u: set<string>, candidates: seq<string>, i: nat, best: string)
    requires Named(g, u) && i < |candidates| && best in candidates[..i] && StrictlySorted(candidates)
    requires forall j :: 0 <= j <= i ==> Candidate(g, u, candidates[j])
    requires forall j :: 0 <= j < i && candidates[j] != best ==> Beats(g, alerted, u, best, candidates[j])
    ensures candidates[i] != best && best != ""
    ensures !Beats(g, alerted, u, candidates[i], best) ==> Beats(g, alerted, u, best, candidates[i])
    ensures Beats(g, alerted, u, candidates[i], best) ==>
              forall j :: 0 <= j < i ==> Beats(g, alerted, u, candidates[i], candidates[j])
  {
    hide Beats, Named, Candidate;
    var root := candidates[i];
    LessIrreflexive(root);
    var b :| 0 <= b < i && candidates[b] == best;
    CandidateNamed(g, u, best);
    BeatsTotal(g, alerted, u, root, best);
    if Beats(g, alerted, u, root, best) {
      forall j | 0 <= j < i ensures Beats(g, alerted, u, root, candidates[j]) {
        CandidateNamed(g, u, candidates[j]);
        if candidates[j] != best { BeatsTransitive(g, alerted, u, root, best, candidates[j]); }
      }
    }
  }

  lemma ScanStep(
    g: Deps, alerted: set<string>, u: set<string>, candidates: seq<string>, i: nat,
    best: string, members: seq<string>, distance: nat, isAlerted: bool, covered: seq<string>, away: nat)
    requires Named(g, u) && StrictlySorted(candidates) && i < |candidates|
    requires forall j :: 0 <= j < |candidates| ==> Candidate(g, u, candidates[j])
    requires Scanned(g, alerted, u, candidates, i, best, members, distance, isAlerted)
    requires Measured(g, alerted, u, candidates[i], covered, away, candidates[i] in alerted)
    ensures var root := candidates[i];
            if BetterRoot(root, |covered|, away, root in alerted, best, |members|, distance, isAlerted)
            then Scanned(g, alerted, u, candidates, i + 1, root, covered, away, root in alerted)
            else Scanned(g, alerted, u, candidates, i + 1, best, members, distance, isAlerted)
  {
    hide Named, Candidate, StrictlySorted, Measured, Beats, BetterRoot;
    var root := candidates[i];
    assert candidates[..i + 1] == candidates[..i] + [root];
    if i > 0 {
      BestSoFar(g, alerted, u, candidates, i, best);
      MeasuredBeats(g, alerted, u, root, covered, away, root in alerted, best, members, distance, isAlerted);
    } else {
      FirstIsBetter(g, alerted, u, root, covered, away);
    }
  }

  lemma MeasuredBeats(
    g: Deps, alerted: set<string>, u: set<string>, r: string, m: seq<string>, d: nat, a: bool,
    c: string, n: seq<string>, e: nat, b: bool)
    requires Measured(g, alerted, u, r, m, d, a) && Measured(g, alerted, u, c, n, e, b)
    ensures BetterRoot(r, |m|, d, a, c, |n|, e, b) == Beats(g, alerted, u, r, c)
  {
  }

  lemma FirstIsBetter(g: Deps, alerted: set<string>, u: set<string>, r: string, m: seq<string>, d: nat)
    requires Measured(g, alerted, u, r, m, d, r in alerted)
    ensures BetterRoot(r, |m|, d, r in alerted, "", 0, 0, false)
  {
  }

  lemma ScanEnd(
    g: Deps, alerted: set<string>, u: set<string>, candidates: seq<string>,
    best: string, members: seq<string>, distance: nat, isAlerted: bool)
    requires u != {} && forall r :: r in candidates <==> Candidate(g, u, r)
    requires Scanned(g, alerted, u, candidates, |candidates|, best, members, distance, isAlerted)
    ensures IsBest(g, alerted, u, best) && StrictlySorted(members) && Elements(members) == Members(g, best, u)
  {
    hide Candidate, Beats;
    SomeCandidate(g, u);
    assert candidates[..|candidates|] == candidates;
    forall c | Candidate(g, u, c) && c != best ensures Beats(g, alerted, u, best, c) {
      assert c in candidates;
    }
  }

  lemma LeadsNowhere(g: Deps, alerted: set<string>, u: set<string>)
    ensures Leads(g, alerted, u, [], u)
  {
  }

  lemma MemberReaches(g: Deps, root: string, u: set<string>, members: seq<string>, i: nat)
    requires Elements(members) == Members(g, root, u) && i < |members|
    ensures members[i] in u && Reaches(g, members[i], root)
  {
    assert members[i] in Elements(members);
  }

  lemma BestNamed(g: Deps, alerted: set<string>, u: set<string>, r: string)
    requires Named(g, u) && IsBest(g, alerted, u, r)
    ensures r != ""
  {
    CandidateNamed(g, u, r);
  }

  lemma CompleteRound(g: Deps, alerted: set<string>, u: set<string>, k: Group)
    requires IsBest(g, alerted, u, k.root) && StrictlySorted(k.members) && Elements(k.members) == Members(g, k.root, u)
    requires k.inferred == (k.root !in alerted) && k.paths.Keys == Elements(k.members)
    requires forall m :: m in k.paths ==> IsLeast(g, m, k.root, k.paths[m])
    ensures Round(g, alerted, u, k) && Elements(k.members) != {} && Elements(k.members) <= u
  {
    MembersOfBest(g, alerted, u, k);
    assert k.members[0] in Elements(k.members);
  }

  class Graph {
    const dependencies: Deps

    static method Appended(values: seq<string>, value: string) returns (r: seq<string>)
      ensures r == AppendUnique(values, value)
    {
      for i := 0 to |values|
        invariant value !in values[..i]
      {
        if values[i] == value { return values; }
      }
      r := values + [value];
    }

    /** Invalid and self edges are skipped; lists end up sorted and without duplicates. */
    constructor (edges: seq<Edge>)
      ensures dependencies == GraphOf(edges) && WellFormed(dependencies)
    {
      var lists: Deps := map[];
      for i := 0 to |edges|
        invariant lists == Lists(edges[..i])
      {
        var e := edges[i];
        assert edges[..i + 1][..i] == edges[..i];
        if Usable(e) {
          var list := Appended(Adjacent(lists, e.service), e.dependsOn);
          lists := lists[e.service := list];
        }
      }
      assert edges[..|edges|] == edges;
      var sorted: Deps := map[];
      var left := lists.Keys;
      while left != {}
        invariant left <= lists.Keys && sorted == map s | s in lists && s !in left :: SortStrings(lists[s])
        decreases left
      {
        var s :| s in left;
        sorted := sorted[s := SortStrings(lists[s])];
        left := left - {s};
      }
      assert sorted == GraphOf(edges);
      GraphMatchesEdges(edges);
      this.dependencies := sorted;
    }

    /** Offers every neighbour of the stop taken off the queue; stops early at the one looked for. */
    method Expand(service: string, dependency: string, current: Stop, queue: seq<Stop>, visited: set<string>,
                  ghost seen: Paths, ghost head: nat)
      returns (found: Option<seq<string>>, queue': seq<Stop>, visited': set<string>, ghost seen': Paths)
      requires WellFormed(dependencies) && |current.path| > 0 && current.service == Last(current.path)
      requires head < |seen| && seen[head] == current.path && Queued(queue, seen, head + 1)
      requires Frontier(dependencies, service, seen, visited, head, 0)
      requires dependency !in visited && visited <= Targets(dependencies) + {service}
      ensures found.Some? ==> IsLeast(dependencies, service, dependency, found.value) && Reaches(dependencies, service, dependency)
      ensures found.None? ==>
                && head < |seen'| && seen'[head] == current.path && Queued(queue', seen', head + 1)
                && Frontier(dependencies, service, seen', visited', head, |Near(dependencies, current.path)|)
                && dependency !in visited' && visited <= visited' <= Targets(dependencies) + {service}
                && (visited' == visited ==> |queue'| == |queue|)
    {
      var g := dependencies;
      found, queue', visited', seen' := None, queue, visited, seen;
      var near := Adjacent(g, current.service);
      hide Frontier, WellFormed, Reaches, IsLeast, Queued, Targets;
      for n := 0 to |near|
        invariant head < |seen'| && seen'[head] == current.path && Queued(queue', seen', head + 1)
        invariant Frontier(g, service, seen', visited', head, n)
        invariant dependency !in visited' && visited <= visited' <= Targets(g) + {service}
        invariant visited' == visited ==> |queue'| == |queue|
        invariant found.None?
      {
        var next := near[n];
        if next in visited' {
          SkipVisited(g, service, seen', visited', head, n);
          continue;
        }
        var path := current.path + [next];
        if next == dependency {
          FoundIsLeast(g, service, seen', visited', head, n);
          found := Some(path);
          return;
        }
        NearIsTarget(g, current.service, n);
        AddNeighbour(g, service, seen', visited', head, n);
        PushQueue(queue', seen', head + 1, Stop(next, path));
        seen' := seen' + [path];
        visited' := visited' + {next};
        queue' := queue' + [Stop(next, path)];
      }
    }

    /** Finds a path exactly when one exists, and then the shortest, alphabetically first one. */
    method Path(service: string, dependency: string) returns (path: Option<seq<string>>)
      requires WellFormed(dependencies)
      ensures path.Some? <==> service != "" && dependency != "" && Reaches(dependencies, service, dependency)
      ensures path.Some? ==> IsLeast(dependencies, service, dependency, path.value)
    {
      var g := dependencies;
      if service == "" || dependency == "" { return None; }
      if service == dependency {
        OneNodeIsLeast(g, service);
        return Some([service]);
      }
      var queue := [Stop(service, [service])];
      var visited := {service};
      ghost var seen: Paths := [[service]];
      ghost var head := 0;
      StartFrontier(g, service);
      assert Queued(queue, seen, head);
      hide Frontier, Finished, WellFormed, Reaches, IsLeast, Queued, Targets, Near, Last, Adjacent;
      ghost var left := Targets(g) + {service} - visited;
      while |queue| > 0
        invariant Queued(queue, seen, head)
        invariant if |queue| > 0 then Frontier(g, service, seen, visited, head, 0) else Finished(g, service, seen, visited)
        invariant dependency !in visited && visited <= Targets(g) + {service} && left == Targets(g) + {service} - visited
        decreases left, |queue|
      {
        ghost var before := visited;
        var current := queue[0];
        PopQueue(queue, seen, head);
        path, queue, visited, seen := Expand(service, dependency, current, queue[1..], visited, seen, head);
        if path.Some? { return; }
        LessLeft(Targets(g) + {service}, before, visited);
        left := Targets(g) + {service} - visited;
        QueueSize(queue, seen, head + 1);
        if |queue| > 0 { NextHead(g, service, seen, visited, head); } else { LastHead(g, service, seen, visited, head); }
        head := head + 1;
      }
      NotFound(g, service, dependency, seen, visited);
      return None;
    }

    /** Everything a service depends on, directly or not, and the service itself. */
    method Reachable(service: string) returns (visited: set<string>)
      ensures forall x :: x in visited <==> Reaches(dependencies, service, x)
    {
      var g := dependencies;
      var queue := [service];
      visited := {service};
      ReachesSelf(g, service);
      while |queue| > 0
        invariant service in visited && Elements(queue) <= visited && visited <= Targets(g) + {service}
        invariant forall x :: x in visited ==> Reaches(g, service, x)
        invariant forall x :: x in visited && x !in queue ==> Elements(Adjacent(g, x)) <= visited
        decreases Targets(g) + {service} - visited, |queue|
      {
        ghost var before, size := visited, |queue|;
        var current := queue[0];
        assert current in Elements(queue);
        ElementsConcat([current], queue[1..]);
        assert queue == [current] + queue[1..];
        queue := queue[1..];
        var near := Adjacent(g, current);
        for n := 0 to |near|
          invariant service in visited && Elements(queue) <= visited && visited <= Targets(g) + {service}
          invariant current in visited && forall x :: x in visited ==> Reaches(g, service, x)
          invariant forall x :: x in visited && x !in queue && x != current ==> Elements(Adjacent(g, x)) <= visited
          invariant Elements(near[..n]) <= visited
          invariant before <= visited && (visited == before ==> |queue| == size - 1)
        {
          var dependency := near[n];
          assert near[..n + 1] == near[..n] + [dependency];
          ElementsConcat(near[..n], [dependency]);
          if dependency in visited { continue; }
          NearIsTarget(g, current, n);
          ReachesStep(g, service, current, dependency);
          ElementsConcat(queue, [dependency]);
          visited := visited + {dependency};
          queue := queue + [dependency];
        }
        assert near[..|near|] == near;
      }
      forall x | Reaches(g, service, x) ensures x in visited {
        var p :| Connects(g, service, x, p);
        ClosedUnderSteps(g, visited, p);
      }
    }

    method RootCandidates(services: set<string>) returns (candidates: seq<string>)
      ensures StrictlySorted(candidates)
      ensures forall r :: r in candidates <==> Candidate(dependencies, services, r)
    {
      var found: set<string> := {};
      var left := services;
      while left != {}
        invariant left <= services
        invariant forall r :: r in found <==> Candidate(dependencies, services - left, r)
        decreases left
      {
        var service :| service in left;
        var visited := Reachable(service);
        OneMoreService(dependencies, services - left, service);
        assert services - (left - {service}) == services - left + {service};
        found := found + visited;
        left := left - {service};
      }
      assert services - left == services;
      candidates := SortedKeys(found);
      assert forall r :: r in candidates <==> r in Elements(candidates);
    }

    /** The services that reach the root, in order, and how far away they are in total. */
    method Covered(root: string, services: set<string>) returns (members: seq<string>, distance: nat)
      requires Named(dependencies, services) && root != ""
      ensures StrictlySorted(members) && Elements(members) == Members(dependencies, root, services)
      ensures distance == Total(dependencies, root, Members(dependencies, root, services))
    {
      var g := dependencies;
      var items: set<string> := {};
      var left := services;
      distance := 0;
      while left != {}
        invariant left <= services && items == Members(g, root, services - left)
        invariant distance == Total(g, root, items)
        decreases left
      {
        var service :| service in left;
        var path := Path(service, root);
        assert services - (left - {service}) == services - left + {service};
        left := left - {service};
        if path.None? { continue; }
        LeastHasDistance(g, service, root, path.value);
        TotalAny(g, root, items + {service}, service);
        assert items + {service} - {service} == items;
        items := items + {service};
        distance := distance + |path.value| - 1;
      }
      assert services - left == services;
      members := SortedKeys(items);
    }

    /** Scans the candidates in order and keeps the better one each time. The empty name the scan starts with never
        survives it, so the source's fallback for an empty result has nothing to do. */
    method ChooseRoot(unassigned: set<string>, alerted: set<string>) returns (best: string, members: seq<string>)
      requires Named(dependencies, unassigned) && unassigned != {}
      ensures IsBest(dependencies, alerted, unassigned, best)
      ensures StrictlySorted(members) && Elements(members) == Members(dependencies, best, unassigned)
    {
      var g := dependencies;
      var candidates := RootCandidates(unassigned);
      var bestDistance := 0;
      var bestAlerted := false;
      best, members := "", [];
      hide Scanned, Measured, Named, IsBest, Candidate;
      assert Scanned(g, alerted, unassigned, candidates, 0, best, members, bestDistance, bestAlerted) by {
        ScanStart(g, alerted, unassigned, candidates);
      }
      for i := 0 to |candidates|
        invariant Scanned(g, alerted, unassigned, candidates, i, best, members, bestDistance, bestAlerted)
      {
        var root := candidates[i];
        CandidateNamed(g, unassigned, root);
        var covered, distance := Covered(root, unassigned);
        CandidateCovers(g, unassigned, root, covered);
        if |covered| == 0 { continue; }
        MeasuredRoot(g, alerted, unassigned, root, covered, distance);
        ScanStep(g, alerted, unassigned, candidates, i, best, members, bestDistance, bestAlerted, covered, distance);
        if BetterRoot(root, |covered|, distance, root in alerted, best, |members|, bestDistance, bestAlerted) {
          best, members, bestDistance, bestAlerted := root, covered, distance, root in alerted;
        }
      }
      ScanEnd(g, alerted, unassigned, candidates, best, members, bestDistance, bestAlerted);
    }

    method UniqueNames(services: seq<string>) returns (names: set<string>)
      ensures names == Alerted(services)
    {
      names := {};
      for i := 0 to |services|
        invariant names == Alerted(services[..i])
      {
        assert services[..i + 1] == services[..i] + [services[i]];
        if services[i] != "" { names := names + {services[i]}; }
      }
      assert services[..|services|] == services;
    }

    /** Records every member's path to the root and takes it off the unassigned services. */
    method TakeMembers(root: string, members: seq<string>, unassigned: set<string>)
      returns (paths: map<string, seq<string>>, left: set<string>)
      requires Named(dependencies, unassigned) && root != "" && Elements(members) == Members(dependencies, root, unassigned)
      ensures left == unassigned - Elements(members) && paths.Keys == Elements(members)
      ensures forall m :: m in paths ==> IsLeast(dependencies, m, root, paths[m])
    {
      left := unassigned;
      paths := map[];
      for i := 0 to |members|
        invariant left == unassigned - Elements(members[..i]) && paths.Keys == Elements(members[..i])
        invariant forall m :: m in paths ==> IsLeast(dependencies, m, root, paths[m])
      {
        MemberReaches(dependencies, root, unassigned, members, i);
        var path := Path(members[i], root);
        assert members[..i + 1] == members[..i] + [members[i]];
        ElementsConcat(members[..i], [members[i]]);
        paths := paths[members[i] := path.value];
        left := left - {members[i]};
      }
      assert members[..|members|] == members;
    }

    /** The greedy grouping: while services are left, the best root takes all that reach it. */
    method Groups(services: seq<string>) returns (groups: seq<Group>)
      requires WellFormed(dependencies)
      ensures IsGrouping(dependencies, services, groups)
    {
      var g := dependencies;
      var alerted := UniqueNames(services);
      var unassigned := alerted;
      var rounds: seq<Group> := [];
      hide Round, Rounds, Leads, WellFormed, IsBest, Members;
      assert Leads(g, alerted, alerted, rounds, unassigned) by { LeadsNowhere(g, alerted, alerted); }
      while unassigned != {}
        invariant unassigned <= alerted && Leads(g, alerted, alerted, rounds, unassigned)
        decreases unassigned
      {
        var root, members := ChooseRoot(unassigned, alerted);
        BestNamed(g, alerted, unassigned, root);
        var paths, left := TakeMembers(root, members, unassigned);
        var group := Group(root, root !in alerted, members, paths);
        CompleteRound(g, alerted, unassigned, group);
        LeadsFurther(g, alerted, alerted, rounds, unassigned, group);
        rounds := rounds + [group];
        unassigned := left;
      }
      LeadsToNothing(g, alerted, alerted, rounds);
      groups := SortByRoot(rounds);
    }
  }
}
