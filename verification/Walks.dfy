/** Service graphs, walks in them, and the order in which the path search ranks walks. */
module Walks {
  import opened Text

  type Deps = map<string, seq<string>>

  function Elements(xs: seq<string>): set<string> { set x | x in xs }

  lemma ElementsConcat(a: seq<string>, b: seq<string>)
    ensures Elements(a + b) == Elements(a) + Elements(b)
  {
    assert forall x :: x in a + b <==> x in a || x in b;
  }

  predicate StrictlySorted(xs: seq<string>) {
    forall i, j :: 0 <= i < j < |xs| ==> Less(xs[i], xs[j])
  }

  /** A set has one strictly sorted listing. */
  lemma {:induction false} SortedUnique(a: seq<string>, b: seq<string>)
    requires StrictlySorted(a) && StrictlySorted(b) && Elements(a) == Elements(b)
    ensures a == b
  {
    assert forall i :: 0 <= i < |a| ==> a[i] in Elements(b);
    assert forall i :: 0 <= i < |b| ==> b[i] in Elements(a);
    if |a| > 0 {
      assert a[0] in b && b[0] in a;
      FirstIsLeast(a, b[0]);
      FirstIsLeast(b, a[0]);
      if a[0] != b[0] { LessAsymmetric(a[0], b[0]); }
      TailElements(a);
      TailElements(b);
      SortedUnique(a[1..], b[1..]);
    }
  }

  lemma FirstIsLeast(a: seq<string>, x: string)
    requires StrictlySorted(a) && x in a
    ensures x == a[0] || Less(a[0], x)
  {
  }

  lemma TailElements(a: seq<string>)
    requires StrictlySorted(a) && |a| > 0
    ensures Elements(a[1..]) == Elements(a) - {a[0]} && StrictlySorted(a[1..])
  {
    LessIrreflexive(a[0]);
    assert a == [a[0]] + a[1..];
    assert forall i :: 0 < i < |a| ==> a[i] != a[0];
  }

  function Adjacent(g: Deps, s: string): seq<string> { if s in g then g[s] else [] }

  /** What New builds: no empty names, and every adjacency list sorted without duplicates. */
  predicate WellFormed(g: Deps) {
    forall s :: s in g ==> s != "" && StrictlySorted(g[s]) && "" !in g[s]
  }

  predicate IsWalk(g: Deps, p: seq<string>) {
    |p| > 0 && forall i :: 0 <= i < |p| - 1 ==> p[i + 1] in Adjacent(g, p[i])
  }

  function Last(p: seq<string>): string
    requires |p| > 0
  {
    p[|p| - 1]
  }

  function Front(p: seq<string>): seq<string>
    requires |p| > 0
  {
    p[..|p| - 1]
  }

  predicate Connects(g: Deps, a: string, b: string, p: seq<string>) {
    IsWalk(g, p) && p[0] == a && Last(p) == b
  }

  ghost predicate Reaches(g: Deps, a: string, b: string) { exists p :: Connects(g, a, b, p) }

  lemma ReachesSelf(g: Deps, a: string)
    ensures Reaches(g, a, a)
  {
    assert Connects(g, a, a, [a]);
  }

  lemma JoinWalks(g: Deps, a: string, b: string, c: string, p: seq<string>, q: seq<string>)
    requires Connects(g, a, b, p) && Connects(g, b, c, q)
    ensures Connects(g, a, c, p + q[1..])
  {
    var r := p + q[1..];
    forall i | 0 <= i < |r| - 1 ensures r[i + 1] in Adjacent(g, r[i]) {
      if i >= |p| - 1 { assert r[i + 1] == q[i - |p| + 2] && r[i] == q[i - |p| + 1]; }
    }
  }

  lemma ReachesTransitive(g: Deps, a: string, b: string, c: string)
    requires Reaches(g, a, b) && Reaches(g, b, c)
    ensures Reaches(g, a, c)
  {
    var p :| Connects(g, a, b, p);
    var q :| Connects(g, b, c, q);
    JoinWalks(g, a, b, c, p, q);
  }

  lemma StepWalk(g: Deps, p: seq<string>, x: string)
    requires IsWalk(g, p) && x in Adjacent(g, Last(p))
    ensures IsWalk(g, p + [x])
  {
  }

  lemma DropLast(g: Deps, p: seq<string>)
    requires IsWalk(g, p) && |p| > 1
    ensures IsWalk(g, Front(p)) && Last(p) in Adjacent(g, Last(Front(p))) && p == Front(p) + [Last(p)]
  {
    assert p[|p| - 2 + 1] in Adjacent(g, p[|p| - 2]);
  }

  // ----- Shorter first, then alphabetical -----

  predicate LexLess(p: seq<string>, q: seq<string>)
    requires |p| == |q|
  {
    |p| > 0 && (Less(p[0], q[0]) || (p[0] == q[0] && LexLess(p[1..], q[1..])))
  }

  predicate PathLess(p: seq<string>, q: seq<string>) {
    |p| < |q| || (|p| == |q| && LexLess(p, q))
  }

  predicate PathLeq(p: seq<string>, q: seq<string>) { p == q || PathLess(p, q) }

  lemma {:induction false} LexTransitive(p: seq<string>, q: seq<string>, r: seq<string>)
    requires |p| == |q| == |r| && LexLess(p, q) && LexLess(q, r)
    ensures LexLess(p, r)
  {
    if Less(p[0], q[0]) && Less(q[0], r[0]) {
      LessTransitive(p[0], q[0], r[0]);
    } else if p[0] == q[0] && q[0] == r[0] {
      LexTransitive(p[1..], q[1..], r[1..]);
    }
  }

  lemma {:induction false} LexIrreflexive(p: seq<string>)
    ensures !LexLess(p, p)
  {
    if |p| > 0 {
      LessIrreflexive(p[0]);
      LexIrreflexive(p[1..]);
    }
  }

  lemma {:induction false} LexAppend(p: seq<string>, q: seq<string>, x: string, y: string)
    requires |p| == |q| && (LexLess(p, q) || (p == q && Less(x, y)))
    ensures LexLess(p + [x], q + [y])
  {
    if |p| > 0 && p[0] == q[0] && !Less(p[0], q[0]) {
      LexAppend(p[1..], q[1..], x, y);
      assert (p + [x])[1..] == p[1..] + [x] && (q + [y])[1..] == q[1..] + [y];
    }
  }

  lemma PathTransitive(p: seq<string>, q: seq<string>, r: seq<string>)
    requires PathLeq(p, q) && PathLeq(q, r)
    ensures PathLeq(p, r)
    ensures PathLess(p, q) || PathLess(q, r) ==> PathLess(p, r)
  {
    if |p| == |q| == |r| && p != q && q != r { LexTransitive(p, q, r); }
  }

  lemma PathAntisymmetric(p: seq<string>, q: seq<string>)
    requires PathLeq(p, q) && PathLeq(q, p)
    ensures p == q
  {
    if p != q {
      PathTransitive(p, q, p);
      LexIrreflexive(p);
    }
  }

  lemma PathAppend(p: seq<string>, q: seq<string>, x: string)
    requires PathLeq(p, q)
    ensures PathLeq(p + [x], q + [x])
  {
    if |p| == |q| && p != q { LexAppend(p, q, x, x); }
  }

  lemma PathAppendStrict(p: seq<string>, q: seq<string>, x: string, y: string)
    requires PathLess(p, q)
    ensures PathLess(p + [x], q + [y])
  {
    if |p| == |q| { LexAppend(p, q, x, y); }
  }

  /** The shortest walk, and among shortest walks the alphabetically first. */
  ghost predicate IsLeast(g: Deps, a: string, b: string, p: seq<string>) {
    Connects(g, a, b, p) && forall q :: Connects(g, a, b, q) ==> PathLeq(p, q)
  }

  lemma LeastUnique(g: Deps, a: string, b: string, p: seq<string>, q: seq<string>)
    requires IsLeast(g, a, b, p) && IsLeast(g, a, b, q)
    ensures p == q
  {
    PathAntisymmetric(p, q);
  }

  // ----- Distance -----

  ghost predicate WithinSteps(g: Deps, a: string, b: string, n: nat) { exists p :: Connects(g, a, b, p) && |p| <= n + 1 }

  lemma {:induction false} SmallestSteps(g: Deps, a: string, b: string, n: nat) returns (d: nat)
    requires WithinSteps(g, a, b, n)
    ensures WithinSteps(g, a, b, d) && (d == 0 || !WithinSteps(g, a, b, d - 1))
  {
    if n > 0 && WithinSteps(g, a, b, n - 1) { d := SmallestSteps(g, a, b, n - 1); } else { d := n; }
  }

  lemma DistanceExists(g: Deps, a: string, b: string)
    requires Reaches(g, a, b)
    ensures exists d: nat :: WithinSteps(g, a, b, d) && (d == 0 || !WithinSteps(g, a, b, d - 1))
  {
    var p :| Connects(g, a, b, p);
    assert WithinSteps(g, a, b, |p| - 1);
    var d := SmallestSteps(g, a, b, |p| - 1);
  }

  /** The number of edges on a shortest walk. */
  ghost function Distance(g: Deps, a: string, b: string): nat
    requires Reaches(g, a, b)
  {
    DistanceExists(g, a, b);
    var d: nat :| WithinSteps(g, a, b, d) && (d == 0 || !WithinSteps(g, a, b, d - 1));
    d
  }

  lemma LeastHasDistance(g: Deps, a: string, b: string, p: seq<string>)
    requires IsLeast(g, a, b, p)
    ensures Reaches(g, a, b) && Distance(g, a, b) == |p| - 1
  {
    var d := Distance(g, a, b);
    var q :| Connects(g, a, b, q) && |q| <= d + 1;
    assert PathLeq(p, q);
  }

  lemma DistanceToSelf(g: Deps, a: string, b: string)
    requires Reaches(g, a, b)
    ensures Distance(g, a, b) == 0 <==> a == b
  {
    if a == b {
      assert Connects(g, a, a, [a]);
      assert WithinSteps(g, a, b, 0);
      WithinMore(g, a, b, 0, Distance(g, a, b));
    }
  }

  lemma WithinMore(g: Deps, a: string, b: string, m: nat, n: nat)
    requires WithinSteps(g, a, b, m)
    ensures m <= n ==> WithinSteps(g, a, b, n)
  {
    var p :| Connects(g, a, b, p) && |p| <= m + 1;
    assert m <= n ==> Connects(g, a, b, p) && |p| <= n + 1;
  }
}
