/** What the greedy grouping of alerted services promises, stated without its loops. */
module Grouping {
  import opened Text
  import opened Walks

  datatype Group = Group(root: string, inferred: bool, members: seq<string>, paths: map<string, seq<string>>)

  ghost function Members(g: Deps, root: string, u: set<string>): set<string> { set s | s in u && Reaches(g, s, root) }

  /** Sum of the distances from every service in m to the root. */
  ghost function Total(g: Deps, root: string, m: set<string>): nat
    requires forall s :: s in m ==> Reaches(g, s, root)
  {
    if m == {} then 0 else var s :| s in m; Distance(g, s, root) + Total(g, root, m - {s})
  }

  /** The sum does not depend on the order in which the set is walked. */
  lemma {:induction false} TotalAny(g: Deps, root: string, m: set<string>, x: string)
    requires x in m && forall s :: s in m ==> Reaches(g, s, root)
    ensures Total(g, root, m) == Distance(g, x, root) + Total(g, root, m - {x})
  {
    var s :| s in m && Total(g, root, m) == Distance(g, s, root) + Total(g, root, m - {s});
    if s != x {
      TotalAny(g, root, m - {s}, x);
      TotalAny(g, root, m - {x}, s);
      assert m - {s} - {x} == m - {x} - {s};
    }
  }

  /** A service some unassigned service depends on, directly or not, or is. */
  ghost predicate Candidate(g: Deps, u: set<string>, r: string) { exists s :: s in u && Reaches(g, s, r) }

  /** The source's comparison: more members, then less total distance, then alerted first, then the smaller name. */
  predicate BetterRoot(
    root: string, members: nat, distance: nat, rootAlerted: bool,
    bestRoot: string, bestMembers: nat, bestDistance: nat, bestAlerted: bool)
  {
    if members != bestMembers then members > bestMembers
    else if distance != bestDistance then distance < bestDistance
    else if rootAlerted != bestAlerted then rootAlerted
    else bestRoot == "" || Less(root, bestRoot)
  }

  ghost predicate Beats(g: Deps, alerted: set<string>, u: set<string>, r: string, c: string) {
    var m, n := Members(g, r, u), Members(g, c, u);
    BetterRoot(r, |m|, Total(g, r, m), r in alerted, c, |n|, Total(g, c, n), c in alerted)
  }

  ghost predicate IsBest(g: Deps, alerted: set<string>, u: set<string>, r: string) {
    Candidate(g, u, r) && forall c :: Candidate(g, u, c) && c != r ==> Beats(g, alerted, u, r, c)
  }

  /** One round: the best root takes every unassigned service that reaches it. */
  ghost predicate Round(g: Deps, alerted: set<string>, u: set<string>, group: Group) {
    && IsBest(g, alerted, u, group.root)
    && StrictlySorted(group.members) && Elements(group.members) == Members(g, group.root, u)
    && group.inferred == (group.root !in alerted)
    && group.paths.Keys == Elements(group.members)
    && forall m :: m in group.paths ==> IsLeast(g, m, group.root, group.paths[m])
  }

  ghost predicate Rounds(g: Deps, alerted: set<string>, u: set<string>, groups: seq<Group>) {
    if u == {} then groups == []
    else |groups| > 0 && Round(g, alerted, u, groups[0]) && Rounds(g, alerted, u - Elements(groups[0].members), groups[1..])
  }

  /** The rounds lead from the unassigned services u to what is left of them. */
  ghost predicate Leads(g: Deps, alerted: set<string>, u: set<string>, groups: seq<Group>, left: set<string>) {
    if |groups| == 0 then u == left
    else Round(g, alerted, u, groups[0]) && Leads(g, alerted, u - Elements(groups[0].members), groups[1..], left)
  }

  lemma {:induction false} LeadsFurther(
    g: Deps, alerted: set<string>, u: set<string>, groups: seq<Group>, left: set<string>, k: Group)
    requires Leads(g, alerted, u, groups, left) && Round(g, alerted, left, k)
    ensures Leads(g, alerted, u, groups + [k], left - Elements(k.members))
    decreases |groups|
  {
    if |groups| > 0 {
      LeadsFurther(g, alerted, u - Elements(groups[0].members), groups[1..], left, k);
      assert (groups + [k])[1..] == groups[1..] + [k];
    } else {
      assert (groups + [k])[1..] == [];
    }
  }

  lemma {:induction false} LeadsToNothing(g: Deps, alerted: set<string>, u: set<string>, groups: seq<Group>)
    requires Leads(g, alerted, u, groups, {})
    ensures Rounds(g, alerted, u, groups)
    decreases |groups|
  {
    if |groups| > 0 { LeadsToNothing(g, alerted, u - Elements(groups[0].members), groups[1..]); }
  }

  // ----- One round -----

  lemma MembersOfBest(g: Deps, alerted: set<string>, u: set<string>, group: Group)
    requires Round(g, alerted, u, group)
    ensures |group.members| > 0 && Elements(group.members) <= u
    ensures forall m :: m in group.members ==> Reaches(g, m, group.root)
  {
    var s :| s in u && Reaches(g, s, group.root);
    assert s in Elements(group.members);
    assert forall m :: m in group.members ==> m in Elements(group.members);
  }

  lemma SubsetOfSameSize(a: set<string>, b: set<string>)
    requires a <= b && |a| >= |b|
    ensures a == b
  {
    assert b == a + (b - a);
  }

  /** Following dependencies further down from the chosen root gains no further service. */
  lemma NothingDeeperCoversMore(g: Deps, alerted: set<string>, u: set<string>, group: Group, d: string)
    requires Round(g, alerted, u, group) && Reaches(g, group.root, d)
    ensures Members(g, d, u) == Elements(group.members)
  {
    var r := group.root;
    MembersOfBest(g, alerted, u, group);
    forall s | s in Members(g, r, u) ensures s in Members(g, d, u) { ReachesTransitive(g, s, r, d); }
    var s :| s in u && Reaches(g, s, r);
    ReachesTransitive(g, s, r, d);
    assert Candidate(g, u, d);
    if d != r { assert Beats(g, alerted, u, r, d); }
    SubsetOfSameSize(Members(g, r, u), Members(g, d, u));
  }

  lemma SingletonTotal(g: Deps, root: string, m: set<string>)
    requires root in m && |m| == 1 && forall s :: s in m ==> Reaches(g, s, root)
    ensures Total(g, root, m) == 0
  {
    TotalAny(g, root, m, root);
    SubsetOfSameSize({root}, m);
    DistanceToSelf(g, root, root);
  }

  /** A root nobody alerted on is only inferred from at least two services that depend on it. */
  lemma InferredNeedsTwo(g: Deps, alerted: set<string>, u: set<string>, group: Group)
    requires Round(g, alerted, u, group) && group.root !in u
    ensures |Elements(group.members)| >= 2
  {
    MembersOfBest(g, alerted, u, group);
    var r, s := group.root, group.members[0];
    var m, n := Members(g, r, u), Members(g, s, u);
    assert s in m;
    ReachesSelf(g, s);
    assert s in n && Candidate(g, u, s);
    assert Beats(g, alerted, u, r, s);
    if |m| == 1 {
      SubsetOfSameSize({s}, n);
      SingletonTotal(g, s, n);
      TotalAny(g, r, m, s);
      DistanceToSelf(g, s, r);
    }
  }

  lemma BeatsAsymmetric(g: Deps, alerted: set<string>, u: set<string>, r: string, c: string)
    requires r != c && r != "" && c != "" && Beats(g, alerted, u, r, c)
    ensures !Beats(g, alerted, u, c, r)
  {
    LessTotal(r, c);
    if Less(r, c) { LessAsymmetric(r, c); }
  }

  lemma BeatsTotal(g: Deps, alerted: set<string>, u: set<string>, r: string, c: string)
    requires r != c
    ensures Beats(g, alerted, u, r, c) || Beats(g, alerted, u, c, r)
  {
    LessTotal(r, c);
  }

  lemma BeatsTransitive(g: Deps, alerted: set<string>, u: set<string>, a: string, b: string, c: string)
    requires b != "" && c != "" && Beats(g, alerted, u, a, b) && Beats(g, alerted, u, b, c)
    ensures Beats(g, alerted, u, a, c)
  {
    if Less(a, b) && Less(b, c) { LessTransitive(a, b, c); }
  }

  predicate Named(g: Deps, u: set<string>) { WellFormed(g) && "" !in u }

  lemma WalkEndsNamed(g: Deps, p: seq<string>)
    requires WellFormed(g) && IsWalk(g, p) && p[0] != ""
    ensures Last(p) != ""
  {
    if |p| > 1 { DropLast(g, p); }
  }

  lemma CandidateNamed(g: Deps, u: set<string>, r: string)
    requires Named(g, u) && Candidate(g, u, r)
    ensures r != ""
  {
    var s :| s in u && Reaches(g, s, r);
    var p :| Connects(g, s, r, p);
    WalkEndsNamed(g, p);
  }

  /** The chosen root covers most; of those that cover as much it is nearest in total; of those equally near an alerted
      one goes first; and of those left it has the smallest name. */
  lemma ChosenRootIsFirst(g: Deps, alerted: set<string>, u: set<string>, group: Group, c: string)
    requires Named(g, u) && Round(g, alerted, u, group) && Candidate(g, u, c) && c != group.root
    ensures var r, m, n := group.root, Members(g, group.root, u), Members(g, c, u);
            && |m| >= |n|
            && (|m| == |n| ==> Total(g, r, m) <= Total(g, c, n))
            && (|m| == |n| && Total(g, r, m) == Total(g, c, n) ==> (c in alerted ==> r in alerted))
            && (|m| == |n| && Total(g, r, m) == Total(g, c, n) && (r in alerted <==> c in alerted) ==> Less(r, c))
  {
    CandidateNamed(g, u, c);
    assert Beats(g, alerted, u, group.root, c);
  }

  lemma BestUnique(g: Deps, alerted: set<string>, u: set<string>, r: string, c: string)
    requires Named(g, u) && IsBest(g, alerted, u, r) && IsBest(g, alerted, u, c)
    ensures r == c
  {
    hide Beats, Candidate;
    CandidateNamed(g, u, r);
    CandidateNamed(g, u, c);
    if r != c { BeatsAsymmetric(g, alerted, u, r, c); }
  }

  lemma RoundUnique(g: Deps, alerted: set<string>, u: set<string>, a: Group, b: Group)
    requires Named(g, u) && Round(g, alerted, u, a) && Round(g, alerted, u, b)
    ensures a == b
  {
    hide IsBest, IsLeast, Less, Members, Named;
    BestUnique(g, alerted, u, a.root, b.root);
    SortedUnique(a.members, b.members);
    forall m | m in a.paths ensures a.paths[m] == b.paths[m] {
      LeastUnique(g, m, a.root, a.paths[m], b.paths[m]);
    }
    assert a.paths == b.paths;
  }

  // ----- All rounds -----

  /** Nothing still unassigned reaches x. */
  ghost predicate Unreached(g: Deps, u: set<string>, x: string) { forall s :: s in u ==> !Reaches(g, s, x) }

  lemma {:induction false} LaterRootsDiffer(g: Deps, alerted: set<string>, u: set<string>, groups: seq<Group>, r: string, j: nat)
    requires Rounds(g, alerted, u, groups) && Unreached(g, u, r) && j < |groups|
    ensures groups[j].root != r
    decreases j
  {
    if j > 0 { LaterRootsDiffer(g, alerted, u - Elements(groups[0].members), groups[1..], r, j - 1); }
  }

  predicate InSome(groups: seq<Group>, s: string) { exists i :: 0 <= i < |groups| && s in groups[i].members }

  predicate Apart(a: Group, b: Group) { a.root != b.root && Elements(a.members) !! Elements(b.members) }

  /** Every service in a group, no group outside them, no two groups with a service or a root in common. */
  predicate Partition(u: set<string>, groups: seq<Group>) {
    && (forall i :: 0 <= i < |groups| ==> Elements(groups[i].members) <= u)
    && (forall s :: s in u ==> InSome(groups, s))
    && (forall i, j :: 0 <= i < j < |groups| ==> Apart(groups[i], groups[j]))
  }

  lemma {:induction false} RoundsPartition(g: Deps, alerted: set<string>, u: set<string>, groups: seq<Group>)
    requires Rounds(g, alerted, u, groups)
    ensures Partition(u, groups)
    decreases |groups|
  {
    if u != {} {
      var first, rest := Elements(groups[0].members), groups[1..];
      MembersOfBest(g, alerted, u, groups[0]);
      RoundsPartition(g, alerted, u - first, rest);
      forall j | 0 < j < |groups| ensures Apart(groups[0], groups[j]) {
        LaterRootsDiffer(g, alerted, u - first, rest, groups[0].root, j - 1);
      }
      PartitionGrows(u, groups);
    }
  }

  lemma PartitionGrows(u: set<string>, groups: seq<Group>)
    requires |groups| > 0 && Elements(groups[0].members) <= u
    requires Partition(u - Elements(groups[0].members), groups[1..])
    requires forall j :: 0 < j < |groups| ==> Apart(groups[0], groups[j])
    ensures Partition(u, groups)
  {
    var first, rest := Elements(groups[0].members), groups[1..];
    forall s | s in u ensures InSome(groups, s) {
      if s !in first {
        assert InSome(rest, s);
        var i :| 0 <= i < |rest| && s in rest[i].members;
        assert s in groups[i + 1].members;
      }
    }
    forall i, j | 0 <= i < j < |groups| ensures Apart(groups[i], groups[j]) {
      if i > 0 { assert Apart(rest[i - 1], rest[j - 1]); }
    }
    forall i | 0 <= i < |groups| ensures Elements(groups[i].members) <= u {
      if i > 0 { assert Elements(rest[i - 1].members) <= u; }
    }
  }

  /** What every group of a grouping satisfies on its own. */
  ghost predicate Sound(g: Deps, alerted: set<string>, group: Group) {
    && |group.members| > 0 && StrictlySorted(group.members) && group.paths.Keys == Elements(group.members)
    && (forall m :: m in group.paths ==> IsLeast(g, m, group.root, group.paths[m]))
    && (if group.inferred then group.root !in alerted && |Elements(group.members)| >= 2 else group.root in group.members)
  }

  /** Services already assigned are out of reach of those that are not. */
  ghost predicate Closed(g: Deps, alerted: set<string>, u: set<string>) {
    u <= alerted && forall a :: a in alerted && a !in u ==> Unreached(g, u, a)
  }

  lemma ClosedAfterRound(g: Deps, alerted: set<string>, u: set<string>, group: Group)
    requires Round(g, alerted, u, group) && Closed(g, alerted, u)
    ensures Closed(g, alerted, u - Elements(group.members))
  {
    MembersOfBest(g, alerted, u, group);
    var rest := u - Elements(group.members);
    forall a, s | a in alerted && a !in rest && s in rest ensures !Reaches(g, s, a) {
      if a in u {
        assert Reaches(g, a, group.root);
        if Reaches(g, s, a) { ReachesTransitive(g, s, a, group.root); }
      } else {
        assert Unreached(g, u, a);
      }
    }
  }

  lemma RoundSound(g: Deps, alerted: set<string>, u: set<string>, group: Group)
    requires Round(g, alerted, u, group) && Closed(g, alerted, u)
    ensures Sound(g, alerted, group)
  {
    MembersOfBest(g, alerted, u, group);
    var r := group.root;
    if r !in alerted {
      InferredNeedsTwo(g, alerted, u, group);
    } else {
      assert r in u by { assert !Unreached(g, u, r); }
      ReachesSelf(g, r);
      assert r in Elements(group.members);
    }
  }

  lemma {:induction false} RoundsSound(g: Deps, alerted: set<string>, u: set<string>, groups: seq<Group>, i: nat)
    requires Rounds(g, alerted, u, groups) && Closed(g, alerted, u) && i < |groups|
    ensures Sound(g, alerted, groups[i])
    decreases i
  {
    if i == 0 {
      RoundSound(g, alerted, u, groups[0]);
    } else {
      ClosedAfterRound(g, alerted, u, groups[0]);
      RoundsSound(g, alerted, u - Elements(groups[0].members), groups[1..], i - 1);
    }
  }

  lemma {:induction false} RoundsUnique(g: Deps, alerted: set<string>, u: set<string>, a: seq<Group>, b: seq<Group>)
    requires Named(g, u) && Rounds(g, alerted, u, a) && Rounds(g, alerted, u, b)
    ensures a == b
    decreases |a|
  {
    if u != {} {
      RoundUnique(g, alerted, u, a[0], b[0]);
      RoundsUnique(g, alerted, u - Elements(a[0].members), a[1..], b[1..]);
      assert a == [a[0]] + a[1..] && b == [b[0]] + b[1..];
    }
  }

  // ----- The result, ordered by root -----

  predicate RootsSorted(groups: seq<Group>) {
    forall i, j :: 0 <= i < j < |groups| ==> !Less(groups[j].root, groups[i].root)
  }

  function InsertByRoot(group: Group, groups: seq<Group>): (r: seq<Group>)
    ensures multiset(r) == multiset(groups) + multiset{group}
  {
    if |groups| == 0 then [group]
    else if !Less(groups[0].root, group.root) then [group] + groups
    else
      assert groups == [groups[0]] + groups[1..];
      [groups[0]] + InsertByRoot(group, groups[1..])
  }

  /** Stable sort by root, as insertion. */
  function SortByRoot(groups: seq<Group>): (r: seq<Group>)
    ensures multiset(r) == multiset(groups)
  {
    if |groups| == 0 then []
    else
      assert groups == [groups[0]] + groups[1..];
      InsertByRoot(groups[0], SortByRoot(groups[1..]))
  }

  lemma {:induction false} InsertKeepsSorted(group: Group, groups: seq<Group>)
    requires RootsSorted(groups)
    ensures RootsSorted(InsertByRoot(group, groups))
  {
    hide Less;
    var r := InsertByRoot(group, groups);
    if |groups| > 0 && Less(groups[0].root, group.root) {
      InsertKeepsSorted(group, groups[1..]);
      var tail := r[1..];
      assert tail == InsertByRoot(group, groups[1..]);
      LessAsymmetric(groups[0].root, group.root);
      forall k | 0 <= k < |tail| ensures !Less(tail[k].root, groups[0].root) {
        assert tail[k] in multiset(tail);
        assert tail[k] == group || tail[k] in groups[1..];
      }
    } else if |groups| > 0 {
      forall k | 0 <= k < |groups| ensures !Less(groups[k].root, group.root) {
        if Less(groups[k].root, group.root) {
          LessTotal(groups[0].root, groups[k].root);
          if Less(groups[0].root, groups[k].root) { LessTransitive(groups[0].root, groups[k].root, group.root); }
        }
      }
    }
  }

  lemma {:induction false} SortSorts(groups: seq<Group>)
    ensures RootsSorted(SortByRoot(groups))
  {
    if |groups| > 0 {
      SortSorts(groups[1..]);
      InsertKeepsSorted(groups[0], SortByRoot(groups[1..]));
    }
  }

  /** The distinct, non-empty alerted names. */
  function Alerted(services: seq<string>): set<string> { set s | s in services && s != "" }

  ghost predicate IsGrouping(g: Deps, services: seq<string>, out: seq<Group>) {
    exists rounds: seq<Group> :: Rounds(g, Alerted(services), Alerted(services), rounds) && out == SortByRoot(rounds)
  }

  /** The grouping depends on the set of alerted services alone: not on their order, their repetition, or the order
      in which any map is walked. */
  lemma GroupingIsDetermined(g: Deps, a: seq<string>, b: seq<string>, out: seq<Group>, out': seq<Group>)
    requires WellFormed(g) && Alerted(a) == Alerted(b) && IsGrouping(g, a, out) && IsGrouping(g, b, out')
    ensures out == out'
  {
    var x: seq<Group> :| Rounds(g, Alerted(a), Alerted(a), x) && out == SortByRoot(x);
    var y: seq<Group> :| Rounds(g, Alerted(b), Alerted(b), y) && out' == SortByRoot(y);
    RoundsUnique(g, Alerted(a), Alerted(a), x, y);
  }

  /** The grouping partitions the alerted services into sound groups with distinct roots, in root order. */
  lemma GroupingPartitions(g: Deps, services: seq<string>, out: seq<Group>)
    requires IsGrouping(g, services, out)
    ensures RootsSorted(out) && Partition(Alerted(services), out)
    ensures forall i :: 0 <= i < |out| ==> Sound(g, Alerted(services), out[i])
  {
    hide Partition, Sound, RootsSorted;
    var all := Alerted(services);
    var rounds: seq<Group> :| Rounds(g, all, all, rounds) && out == SortByRoot(rounds);
    SortSorts(rounds);
    RoundsPartition(g, all, all, rounds);
    PartitionPermutes(all, rounds, out);
    SameElements(out, rounds);
    forall k | 0 <= k < |out| ensures Sound(g, all, out[k]) {
      assert out[k] in rounds;
      var i :| 0 <= i < |rounds| && rounds[i] == out[k];
      RoundsSound(g, all, all, rounds, i);
    }
  }

  lemma SameElements(a: seq<Group>, b: seq<Group>)
    requires multiset(a) == multiset(b)
    ensures forall k :: k in a <==> k in b
  {
    assert forall k :: k in a <==> k in multiset(a);
    assert forall k :: k in b <==> k in multiset(b);
  }

  lemma {:induction false} CountOfDistinct(a: seq<Group>, k: Group)
    requires forall i, j :: 0 <= i < j < |a| ==> a[i] != a[j]
    ensures multiset(a)[k] <= 1
  {
    if |a| > 0 {
      CountOfDistinct(a[1..], k);
      assert a == [a[0]] + a[1..];
      if a[0] == k { assert k !in a[1..]; }
    }
  }

  lemma NoDuplicates(a: seq<Group>, b: seq<Group>, i: nat, j: nat)
    requires multiset(a) == multiset(b) && i < j < |b| && forall i, j :: 0 <= i < j < |a| ==> a[i] != a[j]
    ensures b[i] != b[j]
  {
    CountOfDistinct(a, b[i]);
    assert b == b[..i] + [b[i]] + b[i + 1..j] + [b[j]] + b[j + 1..];
  }

  lemma PartitionPermutes(u: set<string>, a: seq<Group>, b: seq<Group>)
    requires multiset(a) == multiset(b) && Partition(u, a)
    ensures Partition(u, b)
  {
    SameElements(a, b);
    forall i, j | 0 <= i < j < |b| ensures Apart(b[i], b[j]) {
      assert forall x, y :: 0 <= x < y < |a| ==> Apart(a[x], a[y]);
      NoDuplicates(a, b, i, j);
      assert b[i] in a && b[j] in a;
      var x :| 0 <= x < |a| && a[x] == b[i];
      var y :| 0 <= y < |a| && a[y] == b[j];
      assert if x < y then Apart(a[x], a[y]) else Apart(a[y], a[x]);
    }
    forall s | s in u ensures InSome(b, s) {
      assert InSome(a, s);
      var x :| 0 <= x < |a| && s in a[x].members;
      assert a[x] in b;
    }
    forall i | 0 <= i < |b| ensures Elements(b[i].members) <= u { assert b[i] in a; }
  }
}
