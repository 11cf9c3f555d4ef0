/** Breadth-first search that carries its paths, and why the first path it finds is the least one. */
module PathSearch {
  import opened Text
  import opened Walks

  type Paths = seq<seq<string>>

  function Near(g: Deps, p: seq<string>): seq<string>
    requires |p| > 0
  {
    Adjacent(g, Last(p))
  }

  /** Some discovered path ends where p ends and is no worse. */
  predicate Covered(seen: Paths, p: seq<string>)
    requires |p| > 0
  {
    exists k :: 0 <= k < |seen| && |seen[k]| > 0 && Last(seen[k]) == Last(p) && PathLeq(seen[k], p)
  }

  predicate FromStart(g: Deps, from: string, visited: set<string>, p: seq<string>) {
    IsWalk(g, p) && p[0] == from && Last(p) in visited
  }

  predicate Ends(seen: Paths, x: string) { exists k :: 0 <= k < |seen| && |seen[k]| > 0 && Last(seen[k]) == x }

  /** Discovered paths: walks from the start, in strictly increasing order, ending exactly in the visited set. */
  predicate Discovered(g: Deps, from: string, seen: Paths, visited: set<string>) {
    && |seen| > 0 && seen[0] == [from]
    && (forall k :: 0 <= k < |seen| ==> FromStart(g, from, visited, seen[k]))
    && (forall i, j :: 0 <= i < j < |seen| ==> PathLess(seen[i], seen[j]))
    && (forall x :: x in visited ==> Ends(seen, x))
  }

  /** p extends a path before c, or c itself by something below its neighbours from the n-th on. */
  predicate Rooted(g: Deps, c: seq<string>, n: nat, p: seq<string>)
    requires |c| > 0
  {
    |p| > 1 ==>
      || PathLess(Front(p), c)
      || (Front(p) == c && forall m :: n <= m < |Near(g, c)| ==> Less(Last(p), Near(g, c)[m]))
  }

  /** The first n neighbours of p are covered. */
  predicate Expanded(g: Deps, seen: Paths, p: seq<string>, n: nat)
    requires |p| > 0 && n <= |Near(g, p)|
  {
    forall m :: 0 <= m < n ==> Covered(seen, p + [Near(g, p)[m]])
  }

  predicate FullyExpanded(g: Deps, seen: Paths, p: seq<string>) { |p| > 0 && Expanded(g, seen, p, |Near(g, p)|) }

  /** The search has expanded the paths before head, and head's first n neighbours. */
  predicate Frontier(g: Deps, from: string, seen: Paths, visited: set<string>, head: nat, n: nat) {
    && Discovered(g, from, seen, visited)
    && head < |seen| && |seen[head]| > 0 && n <= |Near(g, seen[head])|
    && (forall k :: 0 <= k < |seen| ==> Rooted(g, seen[head], n, seen[k]))
    && (forall i :: 0 <= i < head ==> FullyExpanded(g, seen, seen[i]))
    && Expanded(g, seen, seen[head], n)
  }

  /** The path the search would offer next. */
  function Offer(g: Deps, seen: Paths, head: nat, n: nat): seq<string>
    requires head < |seen| && |seen[head]| > 0 && n < |Near(g, seen[head])|
  {
    seen[head] + [Near(g, seen[head])[n]]
  }

  lemma OfferIsLast(g: Deps, from: string, seen: Paths, visited: set<string>, head: nat, n: nat, k: nat)
    requires Frontier(g, from, seen, visited, head, n) && n < |Near(g, seen[head])| && k < |seen|
    ensures PathLess(seen[k], Offer(g, seen, head, n))
  {
    hide Discovered, Expanded, FullyExpanded;
    var c, p, x := seen[head], seen[k], Near(g, seen[head])[n];
    assert Rooted(g, c, n, p);
    if |p| > 1 {
      assert p == Front(p) + [Last(p)];
      if Front(p) == c {
        LexAppend(c, c, Last(p), x);
      } else {
        PathAppendStrict(Front(p), c, Last(p), x);
      }
    }
  }

  lemma CoveredByLess(seen: Paths, p: seq<string>, q: seq<string>)
    requires |p| > 0 && |q| > 0 && Covered(seen, p) && Last(p) == Last(q) && PathLeq(p, q)
    ensures Covered(seen, q)
  {
    var k :| 0 <= k < |seen| && |seen[k]| > 0 && Last(seen[k]) == Last(p) && PathLeq(seen[k], p);
    PathTransitive(seen[k], p, q);
  }

  lemma BeyondStep(g: Deps, from: string, seen: Paths, visited: set<string>, head: nat, n: nat, k: nat, x: string)
    requires WellFormed(g) && Frontier(g, from, seen, visited, head, n) && n < |Near(g, seen[head])|
    requires k < |seen| && |seen[k]| > 0 && x in Near(g, seen[k])
    ensures Covered(seen, seen[k] + [x]) || PathLeq(Offer(g, seen, head, n), seen[k] + [x])
  {
    var near := Near(g, seen[k]);
    var m :| 0 <= m < |near| && near[m] == x;
    if k < head {
      assert FullyExpanded(g, seen, seen[k]);
    } else if k == head {
      if n < m { LexAppend(seen[head], seen[head], near[n], near[m]); }
    } else {
      PathAppendStrict(seen[head], seen[k], Near(g, seen[head])[n], x);
    }
  }

  /** A walk that no discovered path covers lies beyond the next offer. */
  lemma {:induction false} BeyondFrontier(
    g: Deps, from: string, seen: Paths, visited: set<string>, head: nat, n: nat, w: seq<string>)
    requires WellFormed(g) && Frontier(g, from, seen, visited, head, n) && n < |Near(g, seen[head])|
    requires IsWalk(g, w) && w[0] == from
    ensures Covered(seen, w) || PathLeq(Offer(g, seen, head, n), w)
    decreases |w|
  {
    var next := Offer(g, seen, head, n);
    if |w| == 1 {
      assert w == seen[0];
    } else {
      var p, x := Front(w), Last(w);
      DropLast(g, w);
      BeyondFrontier(g, from, seen, visited, head, n, p);
      if PathLeq(next, p) {
        PathTransitive(next, p, w);
      } else {
        var k :| 0 <= k < |seen| && |seen[k]| > 0 && Last(seen[k]) == Last(p) && PathLeq(seen[k], p);
        PathAppend(seen[k], p, x);
        BeyondStep(g, from, seen, visited, head, n, k, x);
        if PathLeq(next, seen[k] + [x]) {
          PathTransitive(next, seen[k] + [x], w);
        } else {
          CoveredByLess(seen, seen[k] + [x], w);
        }
      }
    }
  }

  /** With nothing left to expand, every walk from the start ends somewhere visited. */
  lemma {:induction false} AllCovered(g: Deps, from: string, seen: Paths, visited: set<string>, w: seq<string>)
    requires Discovered(g, from, seen, visited)
    requires forall i :: 0 <= i < |seen| ==> FullyExpanded(g, seen, seen[i])
    requires IsWalk(g, w) && w[0] == from
    ensures Last(w) in visited
    decreases |w|
  {
    if |w| == 1 {
      assert w == seen[0];
    } else {
      DropLast(g, w);
      AllCovered(g, from, seen, visited, Front(w));
      assert Ends(seen, Last(Front(w)));
      var k :| 0 <= k < |seen| && |seen[k]| > 0 && Last(seen[k]) == Last(Front(w));
      ExpansionVisits(g, from, seen, visited, k, Last(w));
    }
  }

  lemma ExpansionVisits(g: Deps, from: string, seen: Paths, visited: set<string>, k: nat, x: string)
    requires Discovered(g, from, seen, visited) && k < |seen| && FullyExpanded(g, seen, seen[k]) && x in Near(g, seen[k])
    ensures x in visited
  {
    var near := Near(g, seen[k]);
    var m :| 0 <= m < |near| && near[m] == x;
    assert Covered(seen, seen[k] + [near[m]]);
    var j :| 0 <= j < |seen| && |seen[j]| > 0 && Last(seen[j]) == x;
    assert FromStart(g, from, visited, seen[j]);
  }

  // ----- How the frontier moves -----

  /** The next neighbour was visited before: its path is no worse than the one on offer. */
  lemma SkipVisited(g: Deps, from: string, seen: Paths, visited: set<string>, head: nat, n: nat)
    requires Frontier(g, from, seen, visited, head, n) && n < |Near(g, seen[head])| && Near(g, seen[head])[n] in visited
    ensures Frontier(g, from, seen, visited, head, n + 1)
  {
    var x := Near(g, seen[head])[n];
    assert Ends(seen, x);
    var k :| 0 <= k < |seen| && |seen[k]| > 0 && Last(seen[k]) == x;
    OfferIsLast(g, from, seen, visited, head, n, k);
    assert Covered(seen, Offer(g, seen, head, n));
    RootedLater(g, seen, seen[head], n);
  }

  lemma RootedLater(g: Deps, seen: Paths, c: seq<string>, n: nat)
    requires |c| > 0 && forall k :: 0 <= k < |seen| ==> Rooted(g, c, n, seen[k])
    ensures forall k :: 0 <= k < |seen| ==> Rooted(g, c, n + 1, seen[k])
  {
    forall k | 0 <= k < |seen| ensures Rooted(g, c, n + 1, seen[k]) { assert Rooted(g, c, n, seen[k]); }
  }

  lemma CoveredGrows(seen: Paths, q: seq<string>, p: seq<string>)
    requires |p| > 0 && Covered(seen, p)
    ensures Covered(seen + [q], p)
  {
    var k :| 0 <= k < |seen| && |seen[k]| > 0 && Last(seen[k]) == Last(p) && PathLeq(seen[k], p);
    assert (seen + [q])[k] == seen[k];
  }

  lemma ExpandedGrows(g: Deps, seen: Paths, q: seq<string>, p: seq<string>, n: nat)
    requires |p| > 0 && n <= |Near(g, p)| && Expanded(g, seen, p, n)
    ensures Expanded(g, seen + [q], p, n)
  {
    forall m | 0 <= m < n ensures Covered(seen + [q], p + [Near(g, p)[m]]) {
      CoveredGrows(seen, q, p + [Near(g, p)[m]]);
    }
  }

  lemma DiscoveredGrows(g: Deps, from: string, seen: Paths, visited: set<string>, q: seq<string>)
    requires Discovered(g, from, seen, visited) && IsWalk(g, q) && q[0] == from
    requires forall k :: 0 <= k < |seen| ==> PathLess(seen[k], q)
    ensures Discovered(g, from, seen + [q], visited + {Last(q)})
  {
    var all, now := seen + [q], visited + {Last(q)};
    forall k | 0 <= k < |all| ensures FromStart(g, from, now, all[k]) {
      if k < |seen| { assert FromStart(g, from, visited, seen[k]); }
    }
    forall x | x in now ensures Ends(all, x) {
      if x in visited {
        assert Ends(seen, x);
        var k :| 0 <= k < |seen| && |seen[k]| > 0 && Last(seen[k]) == x;
        assert all[k] == seen[k];
      } else {
        assert Last(all[|seen|]) == x;
      }
    }
  }

  /** The next neighbour is new: its path goes to the end of the discovered ones. */
  lemma AddNeighbour(g: Deps, from: string, seen: Paths, visited: set<string>, head: nat, n: nat)
    requires WellFormed(g) && Frontier(g, from, seen, visited, head, n) && n < |Near(g, seen[head])|
    ensures Frontier(g, from, seen + [Offer(g, seen, head, n)], visited + {Near(g, seen[head])[n]}, head, n + 1)
  {
    hide Covered, PathLess;
    var c := seen[head];
    var q := Offer(g, seen, head, n);
    var all := seen + [q];
    forall k | 0 <= k < |seen| ensures PathLess(seen[k], q) { OfferIsLast(g, from, seen, visited, head, n, k); }
    assert FromStart(g, from, visited, c);
    StepWalk(g, c, Near(g, c)[n]);
    DiscoveredGrows(g, from, seen, visited, q);
    forall i | 0 <= i < head ensures FullyExpanded(g, all, all[i]) {
      assert FullyExpanded(g, seen, seen[i]);
      ExpandedGrows(g, seen, q, seen[i], |Near(g, seen[i])|);
    }
    ExpandedGrows(g, seen, q, c, n);
    NewIsCovered(seen, q);
    RootedLater(g, seen, c, n);
    assert Rooted(g, c, n + 1, q);
  }

  lemma NewIsCovered(seen: Paths, q: seq<string>)
    requires |q| > 0
    ensures Covered(seen + [q], q)
  {
    assert (seen + [q])[|seen|] == q;
  }

  /** All neighbours done: the next discovered path becomes the current one. */
  lemma NextHead(g: Deps, from: string, seen: Paths, visited: set<string>, head: nat)
    requires head + 1 < |seen| && |seen[head]| > 0 && Frontier(g, from, seen, visited, head, |Near(g, seen[head])|)
    ensures Frontier(g, from, seen, visited, head + 1, 0)
  {
    var c, d := seen[head], seen[head + 1];
    assert FromStart(g, from, visited, d);
    forall k | 0 <= k < |seen| ensures Rooted(g, d, 0, seen[k]) {
      assert Rooted(g, c, |Near(g, c)|, seen[k]);
      if |seen[k]| > 1 { PathTransitive(Front(seen[k]), c, d); }
    }
  }

  // ----- Start and end of the search -----

  lemma StartFrontier(g: Deps, from: string)
    ensures Frontier(g, from, [[from]], {from}, 0, 0)
  {
    assert Last([from]) == from;
    assert [[from]][0] == [from];
    assert Ends([[from]], from);
  }

  predicate Finished(g: Deps, from: string, seen: Paths, visited: set<string>) {
    Discovered(g, from, seen, visited) && forall i :: 0 <= i < |seen| ==> FullyExpanded(g, seen, seen[i])
  }

  lemma LastHead(g: Deps, from: string, seen: Paths, visited: set<string>, head: nat)
    requires head + 1 == |seen| && |seen[head]| > 0 && Frontier(g, from, seen, visited, head, |Near(g, seen[head])|)
    ensures Finished(g, from, seen, visited)
  {
  }

  lemma OneNodeIsLeast(g: Deps, a: string)
    ensures IsLeast(g, a, a, [a]) && Reaches(g, a, a)
  {
    assert Connects(g, a, a, [a]);
    forall q | Connects(g, a, a, q) ensures PathLeq([a], q) {
      if |q| == 1 { assert q == [a]; }
    }
  }

  /** The first path offered to a service not visited before is the least path to it. */
  lemma FoundIsLeast(g: Deps, from: string, seen: Paths, visited: set<string>, head: nat, n: nat)
    requires WellFormed(g) && Frontier(g, from, seen, visited, head, n) && n < |Near(g, seen[head])|
    requires Near(g, seen[head])[n] !in visited
    ensures IsLeast(g, from, Near(g, seen[head])[n], Offer(g, seen, head, n)) && Reaches(g, from, Near(g, seen[head])[n])
  {
    var to, found := Near(g, seen[head])[n], Offer(g, seen, head, n);
    assert FromStart(g, from, visited, seen[head]);
    StepWalk(g, seen[head], to);
    assert Connects(g, from, to, found);
    forall q | Connects(g, from, to, q) ensures PathLeq(found, q) {
      BeyondFrontier(g, from, seen, visited, head, n, q);
      UnvisitedUncovered(g, from, seen, visited, q);
    }
  }

  lemma UnvisitedUncovered(g: Deps, from: string, seen: Paths, visited: set<string>, p: seq<string>)
    requires Discovered(g, from, seen, visited) && |p| > 0 && Last(p) !in visited
    ensures !Covered(seen, p)
  {
    assert forall k :: 0 <= k < |seen| ==> FromStart(g, from, visited, seen[k]);
  }

  lemma NotFound(g: Deps, from: string, to: string, seen: Paths, visited: set<string>)
    requires Finished(g, from, seen, visited) && to !in visited
    ensures !Reaches(g, from, to)
  {
    forall q | Connects(g, from, to, q) ensures false { AllCovered(g, from, seen, visited, q); }
  }
}
