/** From matched alerts to one diagnosis: the best hypothesis, the topology fallback, and what confidence ends up as. */
module Diagnosis {
  import opened Text
  import opened RootCause

  /** An alert that names a rule's failure mode. */
  datatype Match = Match(rule: Rule, service: string)

  /** The probes of one rule, run for one service. */
  datatype Run = Run(service: string, results: seq<Result>)

  // ----- One match per rule -----

  /** One of the first n matches names the rule. */
  predicate Named(matches: seq<Match>, n: nat, id: string)
    requires n <= |matches|
  {
    exists i :: 0 <= i < n && matches[i].rule.id == id
  }

  /** Rule ids in the order their first match comes in. */
  function Order(matches: seq<Match>, n: nat): (ids: seq<string>)
    requires n <= |matches|
    ensures (forall id :: id in ids <==> Named(matches, n, id)) && Distinct(ids)
  {
    if n == 0 then []
    else
      var ids, id := Order(matches, n - 1), matches[n - 1].rule.id;
      if id in ids then ids else ids + [id]
  }

  /** The match that scopes a rule's probes: the first on the incident's own service, otherwise the first. */
  predicate PrimaryAt(matches: seq<Match>, n: nat, own: string, id: string, i: nat)
    requires n <= |matches|
  {
    && i < n && matches[i].rule.id == id
    && if matches[i].service == own then forall j :: 0 <= j < i && matches[j].rule.id == id ==> matches[j].service != own
       else (forall j :: 0 <= j < n && matches[j].rule.id == id ==> i <= j && matches[j].service != own)
  }

  /** The rule's match after the first n, replaced by a later one only to move onto the incident's own service. */
  function Pick(matches: seq<Match>, n: nat, own: string, id: string): (r: Option<nat>)
    requires n <= |matches|
    ensures r.Some? <==> Named(matches, n, id)
    ensures r.Some? ==> PrimaryAt(matches, n, own, id, r.value)
  {
    if n == 0 then None
    else
      var p := Pick(matches, n - 1, own, id);
      if matches[n - 1].rule.id != id then p
      else if p.None? || (matches[p.value].service != own && matches[n - 1].service == own) then Some(n - 1)
      else p
  }

  ghost predicate Picked(matches: seq<Match>, n: nat, own: string, chosen: map<string, Match>)
    requires n <= |matches|
  {
    forall id :: PickedFor(matches, n, own, chosen, id)
  }

  predicate PickedFor(matches: seq<Match>, n: nat, own: string, chosen: map<string, Match>, id: string)
    requires n <= |matches|
  {
    var p := Pick(matches, n, own, id);
    (id in chosen <==> p.Some?) && (id in chosen ==> chosen[id] == matches[p.value])
  }

  lemma PickNext(matches: seq<Match>, n: nat, own: string, chosen: map<string, Match>)
    requires n < |matches| && Picked(matches, n, own, chosen)
    ensures var m := matches[n];
            var moves := m.rule.id !in chosen || (chosen[m.rule.id].service != own && m.service == own);
            Picked(matches, n + 1, own, if moves then chosen[m.rule.id := m] else chosen)
  {
    var m := matches[n];
    var moves := m.rule.id !in chosen || (chosen[m.rule.id].service != own && m.service == own);
    var after := if moves then chosen[m.rule.id := m] else chosen;
    var next := n + 1;
    forall id ensures PickedFor(matches, next, own, after, id) { assert PickedFor(matches, n, own, chosen, id); }
  }

  function Primary(matches: seq<Match>, own: string, id: string): Match
    requires Named(matches, |matches|, id)
  {
    matches[Pick(matches, |matches|, own, id).value]
  }

  method PrimaryMatches(matches: seq<Match>, own: string) returns (primary: seq<Match>)
    ensures var ids := Order(matches, |matches|);
            |primary| == |ids| && forall k :: 0 <= k < |ids| ==> ids[k] in ids && primary[k] == Primary(matches, own, ids[k])
  {
    hide PrimaryAt, Picked, Pick, Named;
    var chosen: map<string, Match> := map[];
    var order: seq<string> := [];
    assert Picked(matches, 0, own, chosen) by { NonePicked(matches, own); }
    for n := 0 to |matches|
      invariant order == Order(matches, n) && Picked(matches, n, own, chosen)
      invariant forall id :: id in chosen <==> id in order
    {
      var m := matches[n];
      PickNext(matches, n, own, chosen);
      if m.rule.id !in chosen {
        order := order + [m.rule.id];
        chosen := chosen[m.rule.id := m];
      } else if chosen[m.rule.id].service != own && m.service == own {
        chosen := chosen[m.rule.id := m];
      }
    }
    primary := [];
    for k := 0 to |order|
      invariant |primary| == k && forall j :: 0 <= j < k ==> order[j] in order && primary[j] == Primary(matches, own, order[j])
    {
      assert order[k] in order;
      AllPicked(matches, own, chosen, order[k]);
      primary := primary + [chosen[order[k]]];
    }
  }

  lemma NonePicked(matches: seq<Match>, own: string)
    ensures Picked(matches, 0, own, map[])
  {
  }

  lemma AllPicked(matches: seq<Match>, own: string, chosen: map<string, Match>, id: string)
    requires Picked(matches, |matches|, own, chosen) && Named(matches, |matches|, id)
    ensures id in chosen && chosen[id] == Primary(matches, own, id)
  {
    assert PickedFor(matches, |matches|, own, chosen, id);
  }

  // ----- Choosing a hypothesis -----

  /** The source's sort order: not contradicted, then more confident, then more sources, then by name. */
  predicate Better(a: Score, b: Score) {
    if a.contradicted != b.contradicted then !a.contradicted
    else if a.confidence != b.confidence then a.confidence > b.confidence
    else if a.sources != b.sources then a.sources > b.sources
    else Less(a.rule.hypothesis, b.rule.hypothesis)
  }

  lemma NotLessTransitive(x: string, y: string, z: string)
    requires !Less(x, y) && !Less(y, z)
    ensures !Less(x, z)
  {
    if Less(x, z) {
      LessTotal(x, y);
      if Less(y, x) { LessTransitive(y, x, z); }
    }
  }

  lemma NotBetterTransitive(a: Score, b: Score, c: Score)
    requires !Better(a, b) && !Better(b, c)
    ensures !Better(a, c)
  {
    var x, y, z := a.rule.hypothesis, b.rule.hypothesis, c.rule.hypothesis;
    if !Less(x, y) && !Less(y, z) { NotLessTransitive(x, y, z); }
  }

  function InsertScore(x: Score, xs: seq<Score>): seq<Score> {
    if |xs| == 0 || !Better(xs[0], x) then [x] + xs else [xs[0]] + InsertScore(x, xs[1..])
  }

  /** A stable sort. */
  function SortScores(xs: seq<Score>): (r: seq<Score>)
    ensures |xs| > 0 ==> |r| > 0
  {
    if |xs| == 0 then [] else InsertScore(xs[0], SortScores(xs[1..]))
  }

  /** Nothing beats it, and it beats everything that came in before it. */
  predicate IsWinner(scores: seq<Score>, i: nat) {
    && i < |scores| && (forall j :: 0 <= j < |scores| ==> !Better(scores[j], scores[i]))
    && (forall j :: 0 <= j < i ==> Better(scores[i], scores[j]))
  }

  lemma BetterIrreflexive(a: Score)
    ensures !Better(a, a)
  {
    LessIrreflexive(a.rule.hypothesis);
  }

  lemma {:induction false} SortedHeadWins(scores: seq<Score>) returns (i: nat)
    requires |scores| > 0
    ensures IsWinner(scores, i) && SortScores(scores)[0] == scores[i]
  {
    hide Better;
    BetterIrreflexive(scores[0]);
    if |scores| == 1 {
      i := 0;
    } else {
      var k := SortedHeadWins(scores[1..]);
      var h := scores[1..][k];
      if Better(h, scores[0]) {
        i := k + 1;
        AsymmetricHere(h, scores[0]);
        forall j | 0 <= j < |scores| ensures !Better(scores[j], h) {
          if j > 0 { assert !Better(scores[1..][j - 1], h); }
        }
        forall j | 0 <= j < i ensures Better(h, scores[j]) {
          if j > 0 { assert Better(h, scores[1..][j - 1]); }
        }
      } else {
        i := 0;
        forall j | 0 <= j < |scores| ensures !Better(scores[j], scores[0]) {
          if j > 0 {
            assert !Better(scores[1..][j - 1], h);
            NotBetterTransitive(scores[j], h, scores[0]);
          }
        }
      }
    }
  }

  lemma AsymmetricHere(a: Score, b: Score)
    requires Better(a, b)
    ensures !Better(b, a)
  {
    if Less(a.rule.hypothesis, b.rule.hypothesis) { LessAsymmetric(a.rule.hypothesis, b.rule.hypothesis); }
  }

  /** There is one winner. */
  lemma WinnerUnique(scores: seq<Score>, i: nat, j: nat)
    requires IsWinner(scores, i) && IsWinner(scores, j)
    ensures i == j
  {
    hide Better;
    assert !Better(scores[i], scores[j]) && !Better(scores[j], scores[i]);
  }

  /** A contradicted hypothesis wins only when every hypothesis is contradicted; otherwise the winner is the most
      confident of those that are not, then the one on most sources, then the first by name. */
  lemma WinnerIsBest(scores: seq<Score>, i: nat)
    requires IsWinner(scores, i)
    ensures scores[i].contradicted ==> forall j :: 0 <= j < |scores| ==> scores[j].contradicted
    ensures forall j :: 0 <= j < |scores| && scores[j].contradicted == scores[i].contradicted ==>
              NotAhead(scores[j], scores[i])
  {
    forall j | 0 <= j < |scores|
      ensures scores[i].contradicted ==> scores[j].contradicted
      ensures scores[j].contradicted == scores[i].contradicted ==> NotAhead(scores[j], scores[i]) {
      assert !Better(scores[j], scores[i]);
    }
  }

  /** Less confident, or as confident on fewer sources, or level on both and not before it by name. */
  predicate NotAhead(a: Score, b: Score) {
    || a.confidence < b.confidence
    || (a.confidence == b.confidence && a.sources < b.sources)
    || (a.confidence == b.confidence && a.sources == b.sources && !Less(a.rule.hypothesis, b.rule.hypothesis))
  }

  // ----- Scores of all matched rules -----

  function FirstOf(matches: seq<Match>, n: nat, id: string): (i: nat)
    requires n <= |matches| && Named(matches, n, id)
    ensures i < n && matches[i].rule.id == id && forall j :: 0 <= j < i ==> matches[j].rule.id != id
  {
    if n > 0 && Named(matches, n - 1, id) then FirstOf(matches, n - 1, id) else n - 1
  }

  function ResultsFor(runs: map<string, Run>, id: string): seq<Result> { if id in runs then runs[id].results else [] }

  /** One score per matched rule. */
  function Scores(matches: seq<Match>, runs: map<string, Run>): (r: seq<Score>)
    ensures |r| == |Order(matches, |matches|)|
  {
    var n := |matches|;
    var ids := Order(matches, n);
    seq(|ids|, k requires 0 <= k < |ids| =>
      (assert ids[k] in ids; ScoreOf(matches[FirstOf(matches, n, ids[k])].rule, ResultsFor(runs, ids[k]))))
  }

  // ----- The diagnosis -----

  datatype Topology = Topology(rootService: string, rootInferred: bool, suppressed: nat)

  datatype Candidates = DiagnosticsFor(target: string) | RemediationsOf(rule: Rule)

  /** No rule means no alert named a known failure mode. */
  datatype Analysis = Analysis(
    ruleId: string, hypothesis: string, confidence: real, cap: real, contradicted: bool, candidates: Candidates)

  function Insufficient(own: string): Analysis { Analysis("", INSUFFICIENT, BASELINE, 0.0, false, DiagnosticsFor(own)) }

  function ServiceFor(matches: seq<Match>, runs: map<string, Run>, id: string): string
    requires Named(matches, |matches|, id)
  {
    if id in runs && runs[id].service != "" then runs[id].service else matches[FirstOf(matches, |matches|, id)].service
  }

  function Concluded(best: Score, service: string): Analysis {
    Analysis(best.rule.id, best.rule.hypothesis, best.confidence, best.cap, best.contradicted,
             if best.contradicted then DiagnosticsFor(service) else RemediationsOf(best.rule))
  }

  /** The winner's score and its rule id. */
  predicate WinsAs(matches: seq<Match>, runs: map<string, Run>, k: nat) {
    k < |Order(matches, |matches|)| && IsWinner(Scores(matches, runs), k)
  }

  /** The verdict reports the k-th matched rule, which wins: its hypothesis and score, and its remediations unless the
      evidence is against it, when it asks for diagnostics of the service that was probed. */
  predicate Reports(matches: seq<Match>, runs: map<string, Run>, k: nat, result: Analysis) {
    && WinsAs(matches, runs, k) && Named(matches, |matches|, Order(matches, |matches|)[k])
    && result == Concluded(Scores(matches, runs)[k], ServiceFor(matches, runs, Order(matches, |matches|)[k]))
    && var score := Scores(matches, runs)[k];
       && result.ruleId == score.rule.id && result.hypothesis == score.rule.hypothesis
       && result.confidence == score.confidence && result.cap == score.cap && result.contradicted == score.contradicted
       && (!score.contradicted ==> result.candidates == RemediationsOf(score.rule))
       && (score.contradicted ==>
             result.candidates.DiagnosticsFor? && Probed(matches, runs, Order(matches, |matches|)[k], result.candidates.target))
  }

  /** The service the rule's probes ran for, or where none did the one of its first match. */
  predicate Probed(matches: seq<Match>, runs: map<string, Run>, id: string, service: string) {
    || (id in runs && runs[id].service == service != "")
    || ((id in runs ==> runs[id].service == "") &&
        exists i :: 0 <= i < |matches| && matches[i].rule.id == id && matches[i].service == service
                    && forall j :: 0 <= j < i ==> matches[j].rule.id != id)
  }

  lemma WinningId(matches: seq<Match>, runs: map<string, Run>, k: nat)
    requires k < |Order(matches, |matches|)|
    ensures var id, score := Order(matches, |matches|)[k], Scores(matches, runs)[k];
            && Named(matches, |matches|, id) && score.rule == matches[FirstOf(matches, |matches|, id)].rule
            && score == ScoreOf(matches[FirstOf(matches, |matches|, id)].rule, ResultsFor(runs, id))
  {
    var ids := Order(matches, |matches|);
    assert ids[k] in ids;
  }

  /** Scores every matched rule once and reports the winner, or that nothing matched. */
  method ScoreHypotheses(own: string, matches: seq<Match>, runs: map<string, Run>)
    returns (result: Analysis)
    ensures |matches| == 0 ==> result == Insufficient(own)
    ensures |matches| > 0 ==> exists k :: Reports(matches, runs, k, result) && forall j :: WinsAs(matches, runs, j) ==> j == k
  {
    var first: map<string, Match>, order := FirstMatches(matches);
    assert |matches| > 0 ==> Named(matches, |matches|, matches[0].rule.id);
    if |order| == 0 { return Insufficient(own); }
    hide ScoreOf, SortScores, Order, IsWinner, FirstOf, Scores;
    var scores := ScoreAll(matches, runs, first, order);
    ghost var w := SortedHeadWins(scores);
    var best := SortScores(scores)[0];
    WinningId(matches, runs, w);
    assert order[w] in order;
    var service := if best.rule.id in runs then runs[best.rule.id].service else "";
    if service == "" { service := first[best.rule.id].service; }
    result := Concluded(best, service);
    assert Reports(matches, runs, w, result);
    forall j | WinsAs(matches, runs, j) ensures j == w { WinnerUnique(scores, j, w); }
  }

  method ScoreAll(matches: seq<Match>, runs: map<string, Run>, first: map<string, Match>, order: seq<string>)
    returns (scores: seq<Score>)
    requires order == Order(matches, |matches|) && forall id :: id in first <==> id in order
    requires forall id :: id in first ==> first[id] == matches[FirstOf(matches, |matches|, id)]
    ensures scores == Scores(matches, runs)
  {
    hide ScoreOf, FirstOf, Order, Named, ResultsFor;
    scores := [];
    for k := 0 to |order|
      invariant scores == Scores(matches, runs)[..k]
    {
      WinningId(matches, runs, k);
      assert order[k] in order;
      var score := ScoreRule(first[order[k]].rule, ResultsFor(runs, order[k]));
      scores := scores + [score];
    }
  }

  method FirstMatches(matches: seq<Match>) returns (first: map<string, Match>, order: seq<string>)
    ensures order == Order(matches, |matches|) && forall id :: id in first <==> id in order
    ensures forall id :: id in first ==> first[id] == matches[FirstOf(matches, |matches|, id)]
  {
    first, order := map[], [];
    for n := 0 to |matches|
      invariant order == Order(matches, n) && forall id :: id in first <==> id in order
      invariant forall id :: id in first ==> first[id] == matches[FirstOf(matches, n, id)]
    {
      var id := matches[n].rule.id;
      if id !in first {
        order := order + [id];
        first := first[id := matches[n]];
      }
    }
  }

  // ----- Topology -----

  /** With no rule matched, downstream alerts behind one root still place the failure. */
  predicate FallsBack(t: Topology, a: Analysis) { a.hypothesis == INSUFFICIENT && t.suppressed > 0 && t.rootService != "" }

  function ApplyTopologyFallback(t: Topology, a: Analysis): Analysis {
    if !FallsBack(t, a) then a
    else
      a.(confidence := if t.rootInferred then 0.58 else 0.72, hypothesis := "Failure at root dependency " + t.rootService,
         candidates := DiagnosticsFor(t.rootService), cap := SourceCap(2))
  }

  /** An observed root nudges confidence in a matched rule, within the cap its sources set. */
  function EnrichWithTopology(t: Topology, a: Analysis): Analysis {
    if t.suppressed > 0 && !t.rootInferred && a.ruleId != "" && !a.contradicted
    then a.(confidence := Clamp(a.confidence + 0.03, BASELINE, a.cap))
    else a
  }

  function Final(t: Topology, a: Analysis): Analysis { EnrichWithTopology(t, ApplyTopologyFallback(t, a)) }

  /** An alert seen on the root moves the report of a rule that stands by 0.03 within its cap, and never below what it
      was; of anything else topology changes nothing, unless it falls back over a verdict without evidence. */
  lemma TopologyNudges(t: Topology, a: Analysis)
    requires BASELINE <= a.confidence <= a.cap && !FallsBack(t, a)
    ensures var final := Final(t, a);
            && final.(confidence := a.confidence) == a && a.confidence <= final.confidence
            && (t.suppressed == 0 || t.rootInferred || a.ruleId == "" || a.contradicted ==> final.confidence == a.confidence)
            && (t.suppressed > 0 && !t.rootInferred && a.ruleId != "" && !a.contradicted ==>
                  final.confidence == if a.confidence + 0.03 <= a.cap then a.confidence + 0.03 else a.cap)
  {
  }

  /** Whatever the probes found: the reported confidence lies between 0.35 and 0.95. Above 0.80, cause probes on both
      backends agreed with the winning rule. Above 0.55, one did, or topology placed a failure nothing else named. */
  lemma ConfidenceIsEarned(t: Topology, matches: seq<Match>, runs: map<string, Run>, k: nat, service: string)
    requires WinsAs(matches, runs, k)
    ensures var verdict := Concluded(Scores(matches, runs)[k], service);
            var results, confidence := ResultsFor(runs, Order(matches, |matches|)[k]), Final(t, verdict).confidence;
            && BASELINE <= confidence <= 0.95
            && (confidence > 0.80 ==> CauseOn(results, Prometheus) && CauseOn(results, Loki))
            && (confidence > 0.55 ==> CauseOn(results, Prometheus) || CauseOn(results, Loki) || FallsBack(t, verdict))
  {
    hide ScoreOf, CauseOn, Scores, IsWinner, Order;
    WinningId(matches, runs, k);
    var id := Order(matches, |matches|)[k];
    ConfidenceNeedsIndependentSources(matches[FirstOf(matches, |matches|, id)].rule, ResultsFor(runs, id));
  }

  /** With no match the report stays at the baseline, or says where topology puts the failure; it proposes diagnostics
      either way. */
  lemma NothingMatchedStaysModest(t: Topology, own: string)
    ensures var final := Final(t, Insufficient(own));
            && final.candidates.DiagnosticsFor? && final.ruleId == "" && !final.contradicted
            && final.confidence == (if t.suppressed == 0 || t.rootService == "" then BASELINE
                                    else if t.rootInferred then 0.58 else 0.72)
            && final.candidates.target == (if t.suppressed == 0 || t.rootService == "" then own else t.rootService)
            && final.hypothesis == (if t.suppressed == 0 || t.rootService == "" then INSUFFICIENT
                                    else "Failure at root dependency " + t.rootService)
  {
    assert Insufficient(own).hypothesis == INSUFFICIENT && Insufficient(own).ruleId == "";
  }

  /** A contradicted winner proposes diagnostics only, means every matched rule was contradicted, and is reported at
      0.575 at most, exactly unless its rule is named like the no-evidence verdict and topology falls back over it. */
  lemma ContradictedWinnerStaysLow(t: Topology, matches: seq<Match>, runs: map<string, Run>, k: nat, service: string)
    requires WinsAs(matches, runs, k) && Scores(matches, runs)[k].contradicted
    requires ValidRule(Scores(matches, runs)[k].rule)
    requires ProbesOf(Scores(matches, runs)[k].rule, ResultsFor(runs, Order(matches, |matches|)[k]))
    ensures var verdict := Concluded(Scores(matches, runs)[k], service);
            && Final(t, verdict).candidates.DiagnosticsFor?
            && (forall j :: 0 <= j < |Scores(matches, runs)| ==> Scores(matches, runs)[j].contradicted)
            && (Final(t, verdict).confidence <= 0.575 <==> !FallsBack(t, verdict))
  {
    hide ScoreOf, Scores, Order, ValidRule, ProbesOf, Better;
    WinningId(matches, runs, k);
    var id := Order(matches, |matches|)[k];
    ContradictedScoresLow(matches[FirstOf(matches, |matches|, id)].rule, ResultsFor(runs, id));
    WinnerIsBest(Scores(matches, runs), k);
  }

  /** No rule is named like the no-evidence verdict. */
  predicate Told(matches: seq<Match>) { forall i :: 0 <= i < |matches| ==> matches[i].rule.hypothesis != INSUFFICIENT }

  /** With rules named apart from that verdict, a contradicted winner is reported at 0.575 at most whatever the topology. */
  lemma ToldContradictedStaysLow(t: Topology, matches: seq<Match>, runs: map<string, Run>, k: nat, service: string)
    requires WinsAs(matches, runs, k) && Scores(matches, runs)[k].contradicted && Told(matches)
    requires ValidRule(Scores(matches, runs)[k].rule)
    requires ProbesOf(Scores(matches, runs)[k].rule, ResultsFor(runs, Order(matches, |matches|)[k]))
    ensures Final(t, Concluded(Scores(matches, runs)[k], service)).confidence <= 0.575
  {
    hide Scores, Order, ValidRule, ProbesOf, Final, ScoreOf;
    WinningId(matches, runs, k);
    ContradictedWinnerStaysLow(t, matches, runs, k, service);
  }

  /** The hypotheses of the shipped rule table. */
  const SHIPPED: seq<string> := [
    "PostgreSQL connection pool exhaustion", "Redis memory pressure causing cache degradation",
    "Nginx upstream misconfiguration or bad route rollout", "Downstream dependency latency dominates the request path",
    "Bad config rollout introduced an invalid runtime configuration"]

  lemma ShippedRulesAreTold(matches: seq<Match>)
    requires forall i :: 0 <= i < |matches| ==> matches[i].rule.hypothesis in SHIPPED
    ensures Told(matches)
  {
    assert |INSUFFICIENT| == 54;
    assert |SHIPPED[0]| == 37 && |SHIPPED[1]| == 47 && |SHIPPED[2]| == 52 && |SHIPPED[3]| == 56 && |SHIPPED[4]| == 62;
    assert forall i :: 0 <= i < |SHIPPED| ==> SHIPPED[i] != INSUFFICIENT;
  }

  // ----- A rule named like the verdict -----

  const CAUSE := Probe("p", Prometheus, 0.5, "c", false, true, AtLeast)
  const MISNAMED := Rule("r", INSUFFICIENT, ["a"], [CAUSE], [])

  lemma MisnamedIsValid()
    ensures ValidRule(MISNAMED)
  {
    assert TrimSpace("p") == "p" && TrimSpace("c") == "c";
    assert MISNAMED.probes[..0] == [];
    assert TotalWeight(MISNAMED.probes) == 0.5;
    assert !MISNAMED.probes[0].symptom;
  }

  lemma OneMatch(m: Match, runs: map<string, Run>)
    ensures Order([m], 1) == [m.rule.id] && Scores([m], runs) == [ScoreOf(m.rule, ResultsFor(runs, m.rule.id))]
    ensures WinsAs([m], runs, 0)
  {
    hide ScoreOf;
    assert Order([m], 0) == [];
    assert Order([m], 1) == [m.rule.id];
    BetterIrreflexive(ScoreOf(m.rule, ResultsFor(runs, m.rule.id)));
  }

  /** The exception is real: a valid rule with that name, refuted by its only probe, is reported at 0.72 behind an
      observed root. */
  lemma MisnamedRuleEscapes()
    ensures var matches, runs := [Match(MISNAMED, "svc")], map["r" := Run("svc", [Result(CAUSE, Refuted)])];
            var t := Topology("db", false, 1);
            && ValidRule(MISNAMED) && ProbesOf(MISNAMED, runs["r"].results)
            && WinsAs(matches, runs, 0) && Scores(matches, runs)[0].contradicted
            && Final(t, Concluded(Scores(matches, runs)[0], "svc")).confidence == 0.72
  {
    hide ValidRule, Scores, Order, IsWinner;
    var results := [Result(CAUSE, Refuted)];
    MisnamedIsValid();
    OneMatch(Match(MISNAMED, "svc"), map["r" := Run("svc", results)]);
    assert results[..0] == [];
    assert WeightOf(results, Corroborated) == 0.0 && WeightOf(results, Refuted) == 0.5;
  }
}
