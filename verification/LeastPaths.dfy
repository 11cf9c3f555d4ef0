/** The least path, defined by always stepping to the first neighbour that gets closer. */
module LeastPaths {
  import opened Text
  import opened Walks
  import opened PathSearch

  /** Stepping to x brings b one edge closer. */
  ghost predicate Closer(g: Deps, a: string, b: string, x: string) {
    x in Adjacent(g, a) && Reaches(g, a, b) && Reaches(g, x, b) && Distance(g, x, b) + 1 == Distance(g, a, b)
  }

  lemma TailWalk(g: Deps, a: string, b: string, p: seq<string>)
    requires Connects(g, a, b, p) && |p| > 1
    ensures p[1] in Adjacent(g, a) && Connects(g, p[1], b, p[1..]) && Reaches(g, p[1], b)
  {
    assert p[0 + 1] in Adjacent(g, p[0]);
    forall i | 0 <= i < |p[1..]| - 1 ensures p[1..][i + 1] in Adjacent(g, p[1..][i]) {
      assert p[(i + 1) + 1] in Adjacent(g, p[i + 1]);
    }
    assert Connects(g, p[1], b, p[1..]);
  }

  lemma PrependWalk(g: Deps, a: string, x: string, b: string, p: seq<string>)
    requires x in Adjacent(g, a) && Connects(g, x, b, p)
    ensures Connects(g, a, b, [a] + p)
  {
    forall i | 0 <= i < |p| ensures ([a] + p)[i + 1] in Adjacent(g, ([a] + p)[i]) {
      if i > 0 { assert p[(i - 1) + 1] in Adjacent(g, p[i - 1]); }
    }
  }

  /** No walk is shorter than the distance, and one has exactly that length. */
  lemma DistanceIsLeast(g: Deps, a: string, b: string, p: seq<string>)
    requires Connects(g, a, b, p)
    ensures Reaches(g, a, b) && Distance(g, a, b) <= |p| - 1
    ensures exists q :: Connects(g, a, b, q) && |q| == Distance(g, a, b) + 1
  {
    var d := Distance(g, a, b);
    var q :| Connects(g, a, b, q) && |q| <= d + 1;
  }

  /** The second node of a walk no longer than the distance is a step closer. */
  lemma ShortWalkStepsCloser(g: Deps, a: string, b: string, p: seq<string>)
    requires Connects(g, a, b, p) && |p| > 1 && Reaches(g, a, b) && |p| == Distance(g, a, b) + 1
    ensures Closer(g, a, b, p[1])
  {
    TailWalk(g, a, b, p);
    DistanceIsLeast(g, p[1], b, p[1..]);
    var q :| Connects(g, p[1], b, q) && |q| == Distance(g, p[1], b) + 1;
    PrependWalk(g, a, p[1], b, q);
    DistanceIsLeast(g, a, b, [a] + q);
  }

  lemma CloserExists(g: Deps, a: string, b: string)
    requires Reaches(g, a, b) && a != b
    ensures exists i :: 0 <= i < |Adjacent(g, a)| && Closer(g, a, b, Adjacent(g, a)[i])
  {
    var p :| Connects(g, a, b, p);
    DistanceIsLeast(g, a, b, p);
    var q :| Connects(g, a, b, q) && |q| == Distance(g, a, b) + 1;
    DistanceToSelf(g, a, b);
    ShortWalkStepsCloser(g, a, b, q);
    var i :| 0 <= i < |Adjacent(g, a)| && Adjacent(g, a)[i] == q[1];
  }

  /** The i-th neighbour is the first, from the n-th on, that gets closer. */
  ghost predicate FirstAt(g: Deps, a: string, b: string, n: nat, i: nat) {
    && n <= i < |Adjacent(g, a)| && Closer(g, a, b, Adjacent(g, a)[i])
    && forall j :: n <= j < i ==> !Closer(g, a, b, Adjacent(g, a)[j])
  }

  ghost function FirstCloser(g: Deps, a: string, b: string, n: nat): (i: nat)
    requires exists i :: n <= i < |Adjacent(g, a)| && Closer(g, a, b, Adjacent(g, a)[i])
    ensures FirstAt(g, a, b, n, i)
    decreases |Adjacent(g, a)| - n
  {
    hide Closer;
    if Closer(g, a, b, Adjacent(g, a)[n]) then n else FirstCloser(g, a, b, n + 1)
  }

  ghost function LeastPath(g: Deps, a: string, b: string): (p: seq<string>)
    requires Reaches(g, a, b)
    ensures |p| > 0
    decreases Distance(g, a, b)
  {
    if a == b then [a]
    else
      CloserExists(g, a, b);
      [a] + LeastPath(g, Adjacent(g, a)[FirstCloser(g, a, b, 0)], b)
  }

  /** Greedy steps and the order on walks agree: this is the shortest, alphabetically first walk. */
  lemma {:induction false} LeastPathIsLeast(g: Deps, a: string, b: string)
    requires WellFormed(g) && Reaches(g, a, b)
    ensures IsLeast(g, a, b, LeastPath(g, a, b)) && |LeastPath(g, a, b)| == Distance(g, a, b) + 1
    decreases Distance(g, a, b)
  {
    DistanceToSelf(g, a, b);
    if a == b {
      OneNodeIsLeast(g, a);
    } else {
      CloserExists(g, a, b);
      var i := FirstCloser(g, a, b, 0);
      var x := Adjacent(g, a)[i];
      LeastPathIsLeast(g, x, b);
      PrependWalk(g, a, x, b, LeastPath(g, x, b));
      forall q | Connects(g, a, b, q) ensures PathLeq(LeastPath(g, a, b), q) {
        StepKeepsLeast(g, a, b, i, LeastPath(g, x, b), q);
      }
    }
  }

  /** Neighbours are listed in order, so the first that gets closer is the alphabetically first. */
  lemma FirstIsSmallest(g: Deps, a: string, b: string, i: nat, y: string)
    requires WellFormed(g) && FirstAt(g, a, b, 0, i) && Closer(g, a, b, y) && y != Adjacent(g, a)[i]
    ensures Less(Adjacent(g, a)[i], y)
  {
    hide Closer;
    assert y in Adjacent(g, a) by { CloserIsAdjacent(g, a, b, y); }
    var k :| 0 <= k < |Adjacent(g, a)| && Adjacent(g, a)[k] == y;
  }

  lemma CloserIsAdjacent(g: Deps, a: string, b: string, y: string)
    requires Closer(g, a, b, y)
    ensures y in Adjacent(g, a)
  {
  }

  lemma StepKeepsLeast(g: Deps, a: string, b: string, i: nat, rest: seq<string>, q: seq<string>)
    requires WellFormed(g) && a != b && i < |Adjacent(g, a)| && FirstAt(g, a, b, 0, i) && Connects(g, a, b, q)
    requires IsLeast(g, Adjacent(g, a)[i], b, rest)
    requires Reaches(g, a, b) && |rest| == Distance(g, a, b)
    ensures PathLeq([a] + rest, q)
  {
    hide Closer, Reaches, Distance, WellFormed, FirstAt, IsWalk, Less;
    DistanceIsLeast(g, a, b, q);
    if |q| == |rest| + 1 {
      ShortWalkStepsCloser(g, a, b, q);
      TailWalk(g, a, b, q);
      assert q == [a] + q[1..];
      assert rest[0] == Adjacent(g, a)[i];
      if q[1] == rest[0] { assert PathLeq(rest, q[1..]); } else { FirstIsSmallest(g, a, b, i, q[1]); }
      PrependOrder(a, rest, q[1..]);
    }
  }

  /** A common first node decides nothing. */
  lemma PrependOrder(a: string, p: seq<string>, q: seq<string>)
    requires |p| == |q| && |p| > 0 && (PathLeq(p, q) || Less(p[0], q[0]))
    ensures PathLeq([a] + p, [a] + q)
  {
    LessIrreflexive(a);
    assert ([a] + p)[1..] == p && ([a] + q)[1..] == q;
  }
}
