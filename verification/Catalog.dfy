/** The typed action catalog: risk classes and the bounds every target and parameter must respect. */
module Catalog {
  import opened Text

  /** The registered actions, and every other name. */
  datatype Action =
    | CollectDiagnostics | RestartService | RollbackConfig | ReloadNginx | ClearRedisKeyspace
    | DrainPostgresConnections | ScaleWorkerSimulation | RevertFeatureFlag | DisableBadRoute | RestartPod
    | ResizeConnectionPool | ToggleFeatureFlag | PurgeCache | Unregistered(name: string)

  /** A risk class as a proposal names it: nothing, one of the three classes, or some other text. */
  datatype Risk = Unset | Low | Medium | High | Unrecognised(text: string)

  const ALLOWED_FLAGS: set<string> := {
    "payments-api/optional-notifications", "payments-api/checkout-v2", "checkout-api/async-confirmation"
  }

  /** The parameter names the catalog knows, and every other one. */
  datatype Name = Size | Enabled | MaxKeys | OtherName(name: string)

  /** A decoded JSON parameter. Numbers arrive as integers or as floats. */
  datatype Param = Int(i: int) | Float(r: real) | Bool(b: bool) | Str(s: string) | Other
  type Params = map<Name, Param>

  predicate IsRegistered(action: Action) { !action.Unregistered? }

  /** The catalog risk: every registered action but diagnostics is medium. */
  function CatalogRisk(action: Action): Risk {
    match action
    case CollectDiagnostics => Low
    case Unregistered(_) => Unset
    case _ => Medium
  }

  function Rank(risk: Risk): nat {
    match risk case Low => 1 case Medium => 2 case High => 3 case _ => 0
  }

  /** The stricter of the catalog and the requested risk; an unrecognised request is passed through. */
  function EffectiveRisk(action: Action, requested: Risk): (r: Risk)
    ensures Rank(r) != 0 ==> Rank(r) >= Rank(CatalogRisk(action))
    ensures Rank(requested) != 0 ==> Rank(r) >= Rank(requested)
    ensures r == CatalogRisk(action) || r == requested
  {
    var catalog := CatalogRisk(action);
    if requested == Unset then catalog
    else if Rank(requested) == 0 then requested
    else if Rank(catalog) > Rank(requested) then catalog
    else requested
  }

  const MIN_INT := -0x8000_0000_0000_0000
  const MAX_INT := 0x7FFF_FFFF_FFFF_FFFF

  function Integer(p: Param): Option<int> {
    match p
    case Int(i) => Some(i)
    case Float(r) =>
      if r.Floor as real == r && MIN_INT <= r.Floor <= MAX_INT then Some(r.Floor) else None
    case _ => None
  }

  predicate IsLabelChar(c: char) { 'a' <= c <= 'z' || '0' <= c <= '9' }

  /** A DNS label: 1 to 63 lower-case letters, digits and inner hyphens. */
  predicate ValidDNSLabel(s: string) {
    && 1 <= |s| <= 63
    && IsLabelChar(s[0]) && IsLabelChar(s[|s| - 1])
    && forall i :: 0 <= i < |s| ==> IsLabelChar(s[i]) || s[i] == '-'
  }

  predicate HasPrefix(s: string, prefix: string) { prefix <= s }

  predicate HasSuffix(s: string, suffix: string) {
    |suffix| <= |s| && s[|s| - |suffix|..] == suffix
  }

  function Count(s: string, c: char): nat {
    if |s| == 0 then 0 else (if s[0] == c then 1 else 0) + Count(s[1..], c)
  }

  predicate ValidCachePrefix(target: string) {
    && HasPrefix(target, "demo:") && HasSuffix(target, ":*") && Count(target, '*') == 1
    && |target| - 1 >= |"demo:x:"|
  }

  /** The text before and after the first '/', as strings.Cut splits it. */
  function Cut(s: string): (parts: (string, string))
    ensures '/' in s ==> parts.0 + "/" + parts.1 == s && '/' !in parts.0
    ensures '/' !in s ==> parts == (s, "")
  {
    if |s| == 0 then (s, "")
    else if s[0] == '/' then ("", s[1..])
    else var (head, rest) := Cut(s[1..]); 
      assert s == [s[0]] + s[1..];
      ([s[0]] + head, rest)
  }

  predicate ValidPodTarget(target: string) {
    var (namespace, pod) := Cut(target);
    '/' in target && '/' !in pod && (namespace == "local" || namespace == "demo") && ValidDNSLabel(pod)
  }

  predicate OnlyKey(parameters: Params, key: Name) { |parameters| == 1 && key in parameters }

  predicate IntegerBetween(p: Param, low: int, high: int) {
    Integer(p).Some? && low <= Integer(p).value <= high
  }

  /** actions.Validate; an action without a case of its own accepts everything. */
  predicate Validate(action: Action, target: string, parameters: Params) {
    match action
    case RestartPod =>
      |parameters| == 0 && ValidPodTarget(target)
    case ResizeConnectionPool =>
      ValidDNSLabel(target) && OnlyKey(parameters, Size) && IntegerBetween(parameters[Size], 2, 50)
    case ToggleFeatureFlag =>
      target in ALLOWED_FLAGS && OnlyKey(parameters, Enabled) && parameters[Enabled].Bool?
    case PurgeCache =>
      ValidCachePrefix(target) && OnlyKey(parameters, MaxKeys) && IntegerBetween(parameters[MaxKeys], 1, 1000)
    case ClearRedisKeyspace =>
      HasPrefix(target, "demo:pressure:")
    case _ =>
      true
  }

  // ----- What is accepted, by example of its shape -----

  /** The number a parameter names, however it was written. */
  predicate NamesNumber(p: Param, i: int) { p == Int(i) || p == Float(i as real) }

  ghost predicate PodShape(target: string) {
    exists pod :: ValidDNSLabel(pod) && (target == "local/" + pod || target == "demo/" + pod)
  }

  ghost predicate CacheShape(target: string) { exists x :: IsCacheName(target, x) }

  predicate IsCacheName(target: string, x: string) { |x| > 0 && '*' !in x && target == "demo:" + x + ":*" }

  lemma {:induction false} CountIs(s: string, c: char)
    ensures Count(s, c) == 0 <==> c !in s
  {
    if |s| > 0 {
      CountIs(s[1..], c);
      assert s == [s[0]] + s[1..];
    }
  }

  lemma {:induction false} CountJoins(s: string, t: string, c: char)
    ensures Count(s + t, c) == Count(s, c) + Count(t, c)
  {
    if |s| == 0 {
      assert s + t == t;
    } else {
      CountJoins(s[1..], t, c);
      assert (s + t)[1..] == s[1..] + t;
    }
  }

  lemma CacheNames(target: string)
    ensures ValidCachePrefix(target) <==> CacheShape(target)
  {
    if ValidCachePrefix(target) {
      var x := target[5..|target| - 2];
      assert target[..5] == "demo:" && target[|target| - 2..] == ":*";
      assert target == "demo:" + x + ":*";
      CountShape(x);
      assert IsCacheName(target, x);
    }
    if x :| IsCacheName(target, x) {
      CountShape(x);
      assert target[|target| - 2..] == ":*" && target[..5] == "demo:";
    }
  }

  lemma CountShape(x: string)
    ensures Count("demo:" + x + ":*", '*') == 1 <==> '*' !in x
  {
    CountJoins("demo:" + x, ":*", '*');
    CountJoins("demo:", x, '*');
    CountIs("demo:", '*');
    CountIs(x, '*');
    assert ":*"[1..] == "*" && "*"[1..] == "";
    assert Count("*", '*') == 1 + Count("", '*');
    assert Count(":*", '*') == 1;
  }

  lemma PodNames(target: string)
    ensures ValidPodTarget(target) <==> PodShape(target)
  {
    hide ValidDNSLabel;
    if ValidPodTarget(target) {
      var (namespace, pod) := Cut(target);
      assert target == namespace + "/" + pod;
      assert target == (if namespace == "local" then "local/" + pod else "demo/" + pod);
    }
    if pod :| ValidDNSLabel(pod) && (target == "local/" + pod || target == "demo/" + pod) {
      LabelHasNoSlash(pod);
      var namespace := if target == "local/" + pod then "local" else "demo";
      assert target == namespace + "/" + pod && target[|namespace|] == '/';
      CutAt(namespace, pod);
    }
  }

  lemma LabelHasNoSlash(s: string)
    requires ValidDNSLabel(s)
    ensures '/' !in s
  {
  }

  lemma {:induction false} CutAt(a: string, b: string)
    requires '/' !in a
    ensures Cut(a + "/" + b) == (a, b)
  {
    var s := a + "/" + b;
    if |a| == 0 {
      assert s == "/" + b && s[1..] == b;
    } else {
      CutAt(a[1..], b);
      assert s[1..] == a[1..] + "/" + b;
      assert a == [a[0]] + a[1..];
    }
  }

  lemma NumbersBetween(p: Param, low: int, high: int)
    requires MIN_INT <= low <= high <= MAX_INT
    ensures IntegerBetween(p, low, high) <==> exists i :: low <= i <= high && NamesNumber(p, i)
  {
    if p.Float? && IntegerBetween(p, low, high) { assert NamesNumber(p, p.r.Floor); }
    if p.Int? && IntegerBetween(p, low, high) { assert NamesNumber(p, p.i); }
    if i :| low <= i <= high && NamesNumber(p, i) { assert p.Float? ==> p.r.Floor == i; }
  }

  /** What the catalog accepts, by the shape of target and parameters: a pod of one of two namespaces; a pool by its
      label, with 2 to 50 connections; one of the three flags, on or off; a demo cache prefix with one wildcard, at the
      end, and 1 to 1000 keys; a pressure keyspace; and of any other action everything. */
  lemma AcceptedExactly(action: Action, target: string, parameters: Params)
    ensures Validate(action, target, parameters) <==>
            match action
            case RestartPod => parameters == map[] && PodShape(target)
            case ResizeConnectionPool =>
              && ValidDNSLabel(target) && parameters.Keys == {Size}
              && exists i :: 2 <= i <= 50 && NamesNumber(parameters[Size], i)
            case ToggleFeatureFlag =>
              && target in {"payments-api/optional-notifications", "payments-api/checkout-v2", "checkout-api/async-confirmation"}
              && parameters.Keys == {Enabled} && parameters[Enabled].Bool?
            case PurgeCache =>
              && CacheShape(target) && parameters.Keys == {MaxKeys}
              && exists i :: 1 <= i <= 1000 && NamesNumber(parameters[MaxKeys], i)
            case ClearRedisKeyspace => exists x :: target == "demo:pressure:" + x
            case _ => true
  {
    hide ValidDNSLabel, ValidCachePrefix, ValidPodTarget, CacheShape, PodShape, IntegerBetween;
    match action
    case RestartPod => PodNames(target);
    case ResizeConnectionPool => OneKey(parameters, Size); if Size in parameters { NumbersBetween(parameters[Size], 2, 50); }
    case ToggleFeatureFlag => OneKey(parameters, Enabled);
    case PurgeCache =>
      CacheNames(target);
      OneKey(parameters, MaxKeys);
      if MaxKeys in parameters { NumbersBetween(parameters[MaxKeys], 1, 1000); }
    case ClearRedisKeyspace =>
      if HasPrefix(target, "demo:pressure:") { assert target == "demo:pressure:" + target[|"demo:pressure:"|..]; }
    case _ =>
  }

  lemma OneKey(parameters: Params, key: Name)
    ensures OnlyKey(parameters, key) <==> parameters.Keys == {key}
  {
    if OnlyKey(parameters, key) {
      assert |parameters.Keys| == 1 && key in parameters.Keys;
      var rest := parameters.Keys - {key};
      assert |rest| == 0;
      assert parameters.Keys == {key} + rest;
    }
    if parameters.Keys == {key} { assert |parameters| == |parameters.Keys| == 1; }
  }
}
