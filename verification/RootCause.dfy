/** Scoring root-cause hypotheses: validated rules, probe results, and the confidence that is reported.

    Weights and confidences are reals. */
module RootCause {
  import opened Text
  import Catalog

  const BASELINE := 0.35
  const ALERT_MATCH := 0.45
  const REFUTATION_FACTOR := 0.5
  const INSUFFICIENT := "Insufficient evidence for a high-confidence root cause"

  datatype Backend = Prometheus | Loki

  /** What a probe found: the backend agreed, disagreed, had nothing, or could not be asked. */
  datatype Status = Corroborated | Refuted | NoData | Unavailable

  datatype Comparator = AtLeast | Above | AtMost | Below | Unknown(text: string)

  /** Whether the query text is well formed and scoped to a service is a given. */
  datatype Probe = Probe(
    id: string, backend: Backend, weight: real, claim: string, symptom: bool, scoped: bool, comparator: Comparator)

  /** A remediation whose target comes from the alert: a label or its service, put into a format with one placeholder. */
  datatype Template = Template(
    action: Catalog.Action, risk: Catalog.Risk, targetLabel: string, fallbackToService: bool, targetFormat: string)

  datatype Rule = Rule(
    id: string, hypothesis: string, alertNames: seq<string>, probes: seq<Probe>, remediations: seq<Template>)

  datatype Result = Result(probe: Probe, status: Status)

  // ----- Validated rules -----

  function TotalWeight(probes: seq<Probe>): real {
    if |probes| == 0 then 0.0 else TotalWeight(probes[..|probes| - 1]) + probes[|probes| - 1].weight
  }

  predicate ValidProbe(p: Probe) {
    !Blank(p.id) && p.scoped && 0.0 < p.weight <= 0.5 && !Blank(p.claim) && !p.comparator.Unknown?
  }

  /** strings.Count of the placeholder. */
  function Placeholders(s: string): nat {
    if |s| < 2 then 0 else if s[0] == '%' && s[1] == 's' then 1 + Placeholders(s[2..]) else Placeholders(s[1..])
  }

  predicate PlaceAt(s: string, i: int) { 0 <= i < |s| - 1 && s[i] == '%' && s[i + 1] == 's' }

  ghost predicate OnlyAt(s: string, i: int) { PlaceAt(s, i) && forall j :: PlaceAt(s, j) ==> j == i }

  ghost predicate HasNone(s: string) { forall i :: !PlaceAt(s, i) }

  ghost predicate HasOne(s: string) { exists i :: OnlyAt(s, i) }

  lemma PlaceLater(s: string, n: nat, i: int)
    requires n <= |s|
    ensures PlaceAt(s[n..], i) <==> i >= 0 && PlaceAt(s, i + n)
  {
  }

  lemma {:induction false} NoPlaceholder(s: string)
    ensures Placeholders(s) == 0 <==> HasNone(s)
  {
    if |s| >= 2 && !PlaceAt(s, 0) {
      NoPlaceholder(s[1..]);
      if HasNone(s[1..]) {
        forall i ensures !PlaceAt(s, i) { PlaceLater(s, 1, i - 1); }
      } else {
        var i :| PlaceAt(s[1..], i);
        PlaceLater(s, 1, i);
      }
    }
  }

  /** A text counts one placeholder exactly if it has one. */
  lemma {:induction false} OnePlaceholder(s: string)
    ensures Placeholders(s) == 1 <==> HasOne(s)
  {
    hide HasOne, HasNone;
    if |s| < 2 {
      TooShort(s);
    } else if PlaceAt(s, 0) {
      NoPlaceholder(s[2..]);
      FirstIsOnly(s);
    } else {
      OnePlaceholder(s[1..]);
      OnlyLater(s);
    }
  }

  lemma TooShort(s: string)
    requires |s| < 2
    ensures !HasOne(s)
  {
  }

  lemma FirstIsOnly(s: string)
    requires |s| >= 2 && PlaceAt(s, 0)
    ensures HasNone(s[2..]) <==> HasOne(s)
  {
    assert !PlaceAt(s, 1);
    if HasNone(s[2..]) {
      forall j | PlaceAt(s, j) ensures j == 0 { PlaceLater(s, 2, j - 2); }
      assert OnlyAt(s, 0);
    } else if i :| OnlyAt(s, i) {
      var j :| PlaceAt(s[2..], j);
      PlaceLater(s, 2, j);
    }
  }

  lemma OnlyLater(s: string)
    requires |s| >= 2 && !PlaceAt(s, 0)
    ensures HasOne(s[1..]) <==> HasOne(s)
  {
    if i :| OnlyAt(s[1..], i) {
      PlaceLater(s, 1, i);
      forall j | PlaceAt(s, j) ensures j == i + 1 { PlaceLater(s, 1, j - 1); }
      assert OnlyAt(s, i + 1);
    }
    if i :| OnlyAt(s, i) {
      PlaceLater(s, 1, i - 1);
      forall j | PlaceAt(s[1..], j) ensures j == i - 1 { PlaceLater(s, 1, j); }
      assert OnlyAt(s[1..], i - 1);
    }
  }

  predicate ValidTemplate(t: Template) {
    && Catalog.IsRegistered(t.action) && t.risk in {Catalog.Low, Catalog.Medium, Catalog.High}
    && (t.targetFormat != "" ==> Placeholders(t.targetFormat) == 1)
    && !(t.targetLabel == "" && t.fallbackToService)
  }

  predicate ValidTemplates(ts: seq<Template>) { forall i :: 0 <= i < |ts| ==> ValidTemplate(ts[i]) }

  const MAX_WEIGHT := 0.5 + 0.000000001

  predicate ValidProbes(probes: seq<Probe>) {
    && (forall i :: 0 <= i < |probes| ==> ValidProbe(probes[i]))
    && (forall i, j :: 0 <= i < j < |probes| ==> probes[i].id != probes[j].id)
    && (exists i :: 0 <= i < |probes| && !probes[i].symptom)
    && TotalWeight(probes) <= MAX_WEIGHT
  }

  function AllNames(rules: seq<Rule>): seq<string> {
    if |rules| == 0 then [] else AllNames(rules[..|rules| - 1]) + rules[|rules| - 1].alertNames
  }

  predicate Distinct(xs: seq<string>) { forall i, j :: 0 <= i < j < |xs| ==> xs[i] != xs[j] }

  predicate ValidRule(r: Rule) {
    r.id != "" && r.hypothesis != "" && |r.alertNames| > 0 && ValidProbes(r.probes) && ValidTemplates(r.remediations)
  }

  /** What the scorer relies on: no alert names two rules, and a rule's weights fit between alert score and ceiling. */
  predicate ValidRules(rules: seq<Rule>) {
    && (forall i :: 0 <= i < |rules| ==> ValidRule(rules[i]))
    && (forall i, j :: 0 <= i < j < |rules| ==> rules[i].id != rules[j].id)
    && Distinct(AllNames(rules))
  }

  lemma MoreDistinct(xs: seq<string>, x: string)
    ensures Distinct(xs + [x]) <==> Distinct(xs) && x !in xs
  {
    if Distinct(xs + [x]) {
      forall i, j | 0 <= i < j < |xs| ensures xs[i] != xs[j] { assert (xs + [x])[i] != (xs + [x])[j]; }
      forall i | 0 <= i < |xs| ensures xs[i] != x { assert (xs + [x])[i] != (xs + [x])[|xs|]; }
    }
  }

  lemma DistinctPrefix(xs: seq<string>, ys: seq<string>)
    requires Distinct(xs + ys)
    ensures Distinct(xs)
  {
    forall i, j | 0 <= i < j < |xs| ensures xs[i] != xs[j] { assert (xs + ys)[i] != (xs + ys)[j]; }
  }

  method ClaimNames(claimed: set<string>, names: seq<string>, ghost before: seq<string>) returns (ok: bool, claimed': set<string>)
    requires claimed == (set x | x in before) && Distinct(before)
    ensures ok <==> Distinct(before + names)
    ensures ok ==> claimed' == set x | x in before + names
  {
    claimed' := claimed;
    assert before + names[..0] == before;
    for i := 0 to |names|
      invariant claimed' == (set x | x in before + names[..i]) && Distinct(before + names[..i])
    {
      assert before + names[..i + 1] == before + names[..i] + [names[i]];
      MoreDistinct(before + names[..i], names[i]);
      if names[i] in claimed' {
        assert before + names == before + names[..i + 1] + names[i + 1..];
        if Distinct(before + names) { DistinctPrefix(before + names[..i + 1], names[i + 1..]); }
        return false, claimed';
      }
      claimed' := claimed' + {names[i]};
    }
    assert names[..|names|] == names;
    ok := true;
  }

  method ValidateProbes(probes: seq<Probe>) returns (ok: bool)
    ensures ok <==> ValidProbes(probes)
  {
    hide ValidProbe;
    var seen: set<string> := {};
    var total, hasCause := 0.0, false;
    for i := 0 to |probes|
      invariant seen == set k | 0 <= k < i :: probes[k].id
      invariant total == TotalWeight(probes[..i])
      invariant hasCause <==> exists k :: 0 <= k < i && !probes[k].symptom
      invariant forall k :: 0 <= k < i ==> ValidProbe(probes[k])
      invariant forall k, m :: 0 <= k < m < i ==> probes[k].id != probes[m].id
    {
      if !ValidProbe(probes[i]) || probes[i].id in seen { return false; }
      assert probes[..i + 1][..i] == probes[..i];
      seen := seen + {probes[i].id};
      total := total + probes[i].weight;
      hasCause := hasCause || !probes[i].symptom;
    }
    assert probes[..|probes|] == probes;
    ok := hasCause && total <= MAX_WEIGHT;
  }

  method ValidateTemplates(templates: seq<Template>) returns (ok: bool)
    ensures ok <==> ValidTemplates(templates)
  {
    for i := 0 to |templates|
      invariant forall k :: 0 <= k < i ==> ValidTemplate(templates[k])
    {
      if !ValidTemplate(templates[i]) { return false; }
    }
    ok := true;
  }

  /** Accepts a rule table exactly when it is valid. */
  method ValidateRules(rules: seq<Rule>) returns (ok: bool)
    ensures ok <==> ValidRules(rules)
  {
    var ids: set<string> := {};
    var claimed: set<string> := {};
    hide ValidProbes, ValidTemplates;
    for i := 0 to |rules|
      invariant ids == set k | 0 <= k < i :: rules[k].id
      invariant forall k, m :: 0 <= k < m < i ==> rules[k].id != rules[m].id
      invariant forall k :: 0 <= k < i ==> ValidRule(rules[k])
      invariant claimed == (set x | x in AllNames(rules[..i])) && Distinct(AllNames(rules[..i]))
    {
      var r := rules[i];
      if r.id == "" || r.hypothesis == "" || r.id in ids || |r.alertNames| == 0 { return false; }
      ids := ids + {r.id};
      assert rules[..i + 1][..i] == rules[..i];
      NamesGrow(rules, i);
      var unclaimed: bool;
      unclaimed, claimed := ClaimNames(claimed, r.alertNames, AllNames(rules[..i]));
      if !unclaimed { return false; }
      var sound := ValidateProbes(r.probes);
      var rendered := ValidateTemplates(r.remediations);
      if !sound || !rendered {
        assert !ValidRule(rules[i]);
        return false;
      }
    }
    assert rules[..|rules|] == rules;
    ok := true;
  }

  lemma {:induction false} NamesGrow(rules: seq<Rule>, i: nat)
    requires i < |rules|
    ensures AllNames(rules[..i + 1]) == AllNames(rules[..i]) + rules[i].alertNames
    ensures Distinct(AllNames(rules)) ==> Distinct(AllNames(rules[..i + 1]))
    decreases |rules|
  {
    assert rules[..i + 1][..i] == rules[..i];
    if i < |rules| - 1 {
      var front := rules[..|rules| - 1];
      NamesGrow(front, i);
      assert front[..i + 1] == rules[..i + 1];
      if Distinct(AllNames(rules)) { DistinctPrefix(AllNames(front), rules[|rules| - 1].alertNames); }
    } else {
      assert rules[..i + 1] == rules;
    }
  }

  // ----- Scoring one rule -----

  /** Weight of the results with this status. */
  function WeightOf(results: seq<Result>, status: Status): real {
    if |results| == 0 then 0.0
    else
      var last := results[|results| - 1];
      WeightOf(results[..|results| - 1], status) + if last.status == status then last.probe.weight else 0.0
  }

  /** A probe for the cause itself, not a symptom, agreed on this backend. */
  predicate CauseOn(results: seq<Result>, backend: Backend) {
    exists i :: 0 <= i < |results| && Agrees(results[i]) && results[i].probe.backend == backend
  }

  predicate Agrees(r: Result) { r.status == Corroborated && !r.probe.symptom }

  function Backends(results: seq<Result>): set<Backend> {
    (if CauseOn(results, Prometheus) then {Prometheus} else {}) + (if CauseOn(results, Loki) then {Loki} else {})
  }

  function SourceCap(sources: nat): real { if sources <= 1 then 0.55 else if sources == 2 then 0.80 else 0.95 }

  function Clamp(value: real, min: real, max: real): real { if value < min then min else if value > max then max else value }

  /** Conversion to an integer drops the fraction. */
  function Truncate(x: real): int { if x >= 0.0 then x.Floor else -((-x).Floor) }

  function Round4(value: real): real {
    (Truncate(value * 10000.0 + (if value < 0.0 then -0.5 else 0.5)) as real) / 10000.0
  }

  datatype Score = Score(
    rule: Rule, corroborated: real, refuted: real, sources: nat, raw: real, cap: real, confidence: real, contradicted: bool)

  function Raw(corroborated: real, refuted: real): real { Round4(ALERT_MATCH + corroborated - REFUTATION_FACTOR * refuted) }

  function ScoreOf(rule: Rule, results: seq<Result>): Score {
    var corroborated, refuted := WeightOf(results, Corroborated), WeightOf(results, Refuted);
    var sources := 1 + |Backends(results)|;
    Score(rule, corroborated, refuted, sources, Raw(corroborated, refuted), SourceCap(sources),
          Clamp(Raw(corroborated, refuted), BASELINE, SourceCap(sources)), refuted > corroborated)
  }

  method ScoreRule(rule: Rule, results: seq<Result>) returns (score: Score)
    ensures score == ScoreOf(rule, results)
    ensures Says(score, results)
  {
    hide Round4, Clamp, SourceCap, Says, CauseOn;
    var corroborated, refuted := 0.0, 0.0;
    var backends: set<Backend> := {};
    BackendsAre(results);
    for i := 0 to |results|
      invariant corroborated == WeightOf(results[..i], Corroborated) && refuted == WeightOf(results[..i], Refuted)
      invariant forall b :: b in backends <==> CauseOn(results[..i], b)
    {
      var r := results[i];
      assert results[..i + 1][..i] == results[..i];
      OneMoreCause(results, i);
      if r.status == Corroborated {
        corroborated := corroborated + r.probe.weight;
        if !r.probe.symptom { backends := backends + {r.probe.backend}; }
      } else if r.status == Refuted {
        refuted := refuted + r.probe.weight;
      }
    }
    assert results[..|results|] == results;
    assert backends == Backends(results);
    var sources := 1 + |backends|;
    var raw := Round4(ALERT_MATCH + corroborated - REFUTATION_FACTOR * refuted);
    var cap := SourceCap(sources);
    score := Score(rule, corroborated, refuted, sources, raw, cap, Clamp(raw, BASELINE, cap), refuted > corroborated);
    ScoreSays(rule, results);
  }

  lemma BackendsAre(results: seq<Result>)
    ensures forall b :: b in Backends(results) <==> CauseOn(results, b)
    ensures forall b :: !CauseOn(results[..0], b)
  {
  }

  lemma OneMoreCause(results: seq<Result>, i: nat)
    requires i < |results|
    ensures forall b :: CauseOn(results[..i + 1], b) <==>
                        CauseOn(results[..i], b) || (Agrees(results[i]) && results[i].probe.backend == b)
  {
    var before, after := results[..i], results[..i + 1];
    forall b ensures CauseOn(after, b) <==> CauseOn(before, b) || (Agrees(results[i]) && results[i].probe.backend == b) {
      if k :| 0 <= k < |before| && Agrees(before[k]) && before[k].probe.backend == b { assert Agrees(after[k]); }
      if Agrees(results[i]) && results[i].probe.backend == b { assert Agrees(after[i]); }
      if k :| 0 <= k < |after| && Agrees(after[k]) && after[k].probe.backend == b {
        if k < i { assert Agrees(before[k]); }
      }
    }
  }

  // ----- What a score says -----

  /** A probe for the cause on this backend came back in favour. */
  predicate Supports(results: seq<Result>, backend: Backend) {
    exists i :: 0 <= i < |results| && results[i].status == Corroborated && !results[i].probe.symptom
                && results[i].probe.backend == backend
  }

  /** Confidence is raw where that lies between the baseline and a cap of 0.55, 0.80 or 0.95 for none, one or both
      backends in favour, and otherwise the nearer end. Raw is 0.45 and the weight in favour less half the weight
      against, to four places. */
  predicate Says(score: Score, results: seq<Result>) {
    && score.contradicted == (score.refuted > score.corroborated)
    && -0.00005 <= score.raw - (0.45 + score.corroborated - score.refuted / 2.0) <= 0.00005
    && score.cap == (if Supports(results, Prometheus) && Supports(results, Loki) then 0.95
                     else if Supports(results, Prometheus) || Supports(results, Loki) then 0.80 else 0.55)
    && score.confidence == (if score.raw < 0.35 then 0.35 else if score.raw > score.cap then score.cap else score.raw)
  }

  lemma ScoreSays(rule: Rule, results: seq<Result>)
    ensures Says(ScoreOf(rule, results), results) && ScoreOf(rule, results).rule == rule
  {
    hide Round4;
    var score := ScoreOf(rule, results);
    Round4Nearest(0.45 + score.corroborated - 0.5 * score.refuted);
    SupportsIsCause(results, Prometheus);
    SupportsIsCause(results, Loki);
    SourcesAre(results);
  }

  lemma SupportsIsCause(results: seq<Result>, backend: Backend)
    ensures Supports(results, backend) <==> CauseOn(results, backend)
  {
    if i :| 0 <= i < |results| && results[i].status == Corroborated && !results[i].probe.symptom && results[i].probe.backend == backend {
      assert Agrees(results[i]);
    }
  }

  /** Without a single result a matched alert scores 0.45. Each probe in favour then raises raw by its weight and each
      against lowers it by half, up to rounding; a probe that saw nothing or could not be asked changes nothing. */
  lemma EachResultCounts(rule: Rule, results: seq<Result>, r: Result)
    ensures var none := ScoreOf(rule, []);
            none.raw == none.confidence == 0.45 && none.corroborated == none.refuted == 0.0 && none.cap == 0.55
    ensures var a, b := ScoreOf(rule, results), ScoreOf(rule, results + [r]);
            var w := r.probe.weight;
            match r.status
            case Corroborated =>
              b.corroborated == a.corroborated + w && b.refuted == a.refuted && -0.0001 <= b.raw - a.raw - w <= 0.0001
            case Refuted =>
              && b.corroborated == a.corroborated && b.refuted == a.refuted + w
              && -0.0001 <= b.raw - a.raw + w / 2.0 <= 0.0001 && b.cap == a.cap
            case _ => b == a
  {
    hide Round4, Backends, Clamp, SourceCap;
    assert (results + [r])[..|results|] == results;
    assert ScoreOf(rule, []).raw == 0.45 && ScoreOf(rule, []).confidence == 0.45 && ScoreOf(rule, []).cap == 0.55 by { NoResults(rule); }
    ScoreSays(rule, results);
    ScoreSays(rule, results + [r]);
    if r.status != Corroborated { NotInFavour(results, r); }
  }

  lemma NoResults(rule: Rule)
    ensures ScoreOf(rule, []).raw == 0.45 && ScoreOf(rule, []).confidence == 0.45 && ScoreOf(rule, []).cap == 0.55
  {
    assert Backends([]) == {};
  }

  lemma NotInFavour(results: seq<Result>, r: Result)
    requires r.status != Corroborated
    ensures Backends(results + [r]) == Backends(results)
  {
    var after := results + [r];
    forall b ensures CauseOn(after, b) <==> CauseOn(results, b) {
      if k :| 0 <= k < |results| && Agrees(results[k]) && results[k].probe.backend == b { assert Agrees(after[k]); }
    }
  }

  // ----- Bounds -----

  lemma Round4Monotone(x: real, y: real)
    requires x <= y
    ensures Round4(x) <= Round4(y)
  {
    hide Truncate;
    var a := x * 10000.0 + (if x < 0.0 then -0.5 else 0.5);
    var b := y * 10000.0 + (if y < 0.0 then -0.5 else 0.5);
    assert a <= b;
    TruncateMonotone(a, b);
    assert (Truncate(a) as real) <= (Truncate(b) as real);
  }

  lemma TruncateMonotone(a: real, b: real)
    requires a <= b
    ensures Truncate(a) <= Truncate(b)
  {
    assert a.Floor <= b.Floor;
    assert (-b).Floor <= (-a).Floor;
  }

  /** Rounding moves a value by at most half a unit in the fourth place. */
  lemma Round4Nearest(x: real)
    ensures -0.00005 <= Round4(x) - x <= 0.00005
  {
    var a := x * 10000.0 + (if x < 0.0 then -0.5 else 0.5);
    var n := Truncate(a) as real;
    assert if x >= 0.0 then a - 1.0 < n <= a else a <= n < a + 1.0;
    assert Round4(x) == n / 10000.0;
  }

  lemma SourcesAre(results: seq<Result>)
    ensures 1 <= 1 + |Backends(results)| <= 3
    ensures 1 + |Backends(results)| == 3 <==> CauseOn(results, Prometheus) && CauseOn(results, Loki)
    ensures 1 + |Backends(results)| >= 2 <==> CauseOn(results, Prometheus) || CauseOn(results, Loki)
  {
    hide CauseOn;
  }

  /** Confidence stays between the baseline and 0.95, passes 0.80 only when cause probes on both backends agree, and
      passes 0.55 only when one does. */
  lemma ConfidenceNeedsIndependentSources(rule: Rule, results: seq<Result>)
    ensures var score := ScoreOf(rule, results);
            && BASELINE <= score.confidence <= 0.95 && score.confidence <= score.cap <= 0.95
            && (score.confidence > 0.80 ==> CauseOn(results, Prometheus) && CauseOn(results, Loki))
            && (score.confidence > 0.55 ==> CauseOn(results, Prometheus) || CauseOn(results, Loki))
            && (score.cap > 0.80 ==> CauseOn(results, Prometheus) && CauseOn(results, Loki))
            && (score.cap > 0.55 ==> CauseOn(results, Prometheus) || CauseOn(results, Loki))
  {
    hide CauseOn, Round4, Backends;
    SourcesAre(results);
  }

  /** The results are those of the rule's probes, in order, with any outcome. */
  predicate ProbesOf(rule: Rule, results: seq<Result>) {
    |results| == |rule.probes| && forall i :: 0 <= i < |results| ==> results[i].probe == rule.probes[i]
  }

  lemma {:induction false} WeightsWithin(probes: seq<Probe>, results: seq<Result>)
    requires |results| == |probes| && forall i :: 0 <= i < |results| ==> results[i].probe == probes[i] && probes[i].weight > 0.0
    ensures WeightOf(results, Corroborated) >= 0.0 && WeightOf(results, Refuted) >= 0.0
    ensures WeightOf(results, Corroborated) + WeightOf(results, Refuted) <= TotalWeight(probes)
  {
    if |probes| > 0 { WeightsWithin(probes[..|probes| - 1], results[..|probes| - 1]); }
  }

  /** A contradicted hypothesis of a valid rule never scores above 0.575. */
  lemma ContradictedScoresLow(rule: Rule, results: seq<Result>)
    requires ValidRule(rule) && ProbesOf(rule, results) && ScoreOf(rule, results).contradicted
    ensures ScoreOf(rule, results).confidence <= 0.575
  {
    hide Backends, ValidProbe;
    assert forall i :: 0 <= i < |rule.probes| ==> rule.probes[i].weight > 0.0 by {
      forall i | 0 <= i < |rule.probes| ensures rule.probes[i].weight > 0.0 { PositiveWeight(rule.probes[i]); }
    }
    WeightsWithin(rule.probes, results);
    var c, r := WeightOf(results, Corroborated), WeightOf(results, Refuted);
    Round4Monotone(ALERT_MATCH + c - REFUTATION_FACTOR * r, 0.575000001);
    assert Round4(0.575000001) == 0.575;
  }

  lemma PositiveWeight(p: Probe)
    requires ValidProbe(p)
    ensures p.weight > 0.0
  {
  }

  // ----- Better evidence never lowers confidence -----

  function Rank(s: Status): nat { match s case Refuted => 0 case NoData => 1 case Unavailable => 1 case Corroborated => 2 }

  predicate NoWorse(a: seq<Result>, b: seq<Result>) {
    |a| == |b| && forall i :: 0 <= i < |a| ==> a[i].probe == b[i].probe && Rank(a[i].status) <= Rank(b[i].status)
  }

  lemma {:induction false} NoWorseWeights(a: seq<Result>, b: seq<Result>)
    requires NoWorse(a, b) && forall i :: 0 <= i < |a| ==> a[i].probe.weight > 0.0
    ensures WeightOf(a, Corroborated) <= WeightOf(b, Corroborated) && WeightOf(a, Refuted) >= WeightOf(b, Refuted)
  {
    if |a| > 0 {
      var n := |a| - 1;
      assert NoWorse(a[..n], b[..n]);
      NoWorseWeights(a[..n], b[..n]);
    }
  }

  lemma NoWorseSources(a: seq<Result>, b: seq<Result>)
    requires NoWorse(a, b)
    ensures |Backends(a)| <= |Backends(b)|
  {
    forall k | CauseOn(a, k) ensures CauseOn(b, k) {
      var i :| 0 <= i < |a| && Agrees(a[i]) && a[i].probe.backend == k;
      assert Agrees(b[i]);
    }
  }

  /** Upgrading any probe from refuted to unobserved to corroborated never lowers a rule's confidence, and never turns
      it into a contradicted one. */
  lemma BetterEvidenceNeverHurts(rule: Rule, a: seq<Result>, b: seq<Result>)
    requires NoWorse(a, b) && forall i :: 0 <= i < |a| ==> a[i].probe.weight > 0.0
    ensures ScoreOf(rule, a).confidence <= ScoreOf(rule, b).confidence
    ensures ScoreOf(rule, b).contradicted ==> ScoreOf(rule, a).contradicted
  {
    hide Round4, Backends;
    NoWorseWeights(a, b);
    NoWorseSources(a, b);
    SourcesAre(a);
    SourcesAre(b);
    Round4Monotone(ALERT_MATCH + WeightOf(a, Corroborated) - REFUTATION_FACTOR * WeightOf(a, Refuted),
                   ALERT_MATCH + WeightOf(b, Corroborated) - REFUTATION_FACTOR * WeightOf(b, Refuted));
  }
}
