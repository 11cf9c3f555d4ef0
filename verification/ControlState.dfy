/** Durable control state: what the typed handlers change, at most once per idempotency key. */
module ControlState {
  import opened Catalog

  datatype Field = Namespace | Pod | RestartToken | MaxConnections | FlagEnabled | MaxKeysField | PurgeToken
  datatype Kind = PodKind | PoolKind | FlagKind | CacheKind

  type Doc = map<Field, Param>
  datatype Target = Target(kind: Kind, name: string)
  datatype Call = Call(key: string, action: Action, target: Target, desired: Doc)
  datatype Mode = DryRun | Execute
  datatype Result = Result(mode: Mode, target: Target, before: Doc, after: Doc, reused: bool)
  datatype State = State(targets: map<Target, Doc>, receipts: map<string, Result>)

  const EMPTY := State(map[], map[])

  function Current(s: State, t: Target): Doc { if t in s.targets then s.targets[t] else map[] }

  function Merge(current: Doc, desired: Doc): Doc { current + desired }

  function PreviewOf(s: State, t: Target, desired: Doc): Result {
    Result(DryRun, t, Current(s, t), Merge(Current(s, t), desired), false)
  }

  function Apply(s: State, c: Call): (State, Result) {
    if c.key in s.receipts then (s, s.receipts[c.key].(reused := true))
    else
      var before := Current(s, c.target);
      var result := Result(Execute, c.target, before, Merge(before, c.desired), false);
      (State(s.targets[c.target := result.after], s.receipts[c.key := result]), result)
  }

  /** The state after a history of calls. */
  function Run(calls: seq<Call>): State {
    if |calls| == 0 then EMPTY else Apply(Run(calls[..|calls| - 1]), calls[|calls| - 1]).0
  }

  /** What call i returned. */
  function Returned(calls: seq<Call>, i: nat): Result
    requires i < |calls|
  {
    Apply(Run(calls[..i]), calls[i]).1
  }

  /** Call i is the first with its key. */
  predicate First(calls: seq<Call>, i: nat)
    requires i < |calls|
  {
    forall j :: 0 <= j < i ==> calls[j].key != calls[i].key
  }

  /** Reference semantics without receipts: merge the first call of every key, in order, and ignore the rest. */
  function Folded(calls: seq<Call>, t: Target): Doc {
    if |calls| == 0 then map[]
    else
      var n := |calls| - 1;
      var rest := Folded(calls[..n], t);
      if calls[n].target == t && First(calls, n) then rest + calls[n].desired else rest
  }

  lemma Step(calls: seq<Call>, i: nat)
    requires i < |calls|
    ensures Run(calls[..i + 1]) == Apply(Run(calls[..i]), calls[i]).0
  {
    assert calls[..i + 1][..i] == calls[..i];
  }

  lemma {:induction false} ReceiptsAreKeysSeen(calls: seq<Call>, key: string)
    ensures key in Run(calls).receipts <==> exists i :: 0 <= i < |calls| && calls[i].key == key
  {
    if |calls| != 0 {
      var n := |calls| - 1;
      ReceiptsAreKeysSeen(calls[..n], key);
      if exists i :: 0 <= i < |calls| && calls[i].key == key {
        var i :| 0 <= i < |calls| && calls[i].key == key;
        if i < n { assert calls[..n][i].key == key; }
      }
      if exists i :: 0 <= i < n && calls[..n][i].key == key {
        var i :| 0 <= i < n && calls[..n][i].key == key;
        assert calls[i].key == key;
      }
    }
  }

  lemma FirstHasNoReceipt(calls: seq<Call>, i: nat)
    requires i < |calls|
    ensures First(calls, i) <==> calls[i].key !in Run(calls[..i]).receipts
  {
    ReceiptsAreKeysSeen(calls[..i], calls[i].key);
    if !First(calls, i) {
      var j :| 0 <= j < i && calls[j].key == calls[i].key;
      assert calls[..i][j].key == calls[i].key;
    }
  }

  /** A receipt, once written, is the result its key's first call returned. */
  lemma {:induction false} ReceiptPersists(calls: seq<Call>, i: nat, n: nat)
    requires i < n <= |calls| && First(calls, i)
    ensures calls[i].key in Run(calls[..n]).receipts
    ensures Run(calls[..n]).receipts[calls[i].key] == Returned(calls, i)
    ensures !Returned(calls, i).reused
  {
    hide Run, First;
    FirstHasNoReceipt(calls, i);
    Step(calls, n - 1);
    if n > i + 1 { ReceiptPersists(calls, i, n - 1); }
  }

  /** A repeated key changes nothing and gets its first result back, marked reused. */
  lemma ReplayReturnsFirst(calls: seq<Call>, i: nat, j: nat)
    requires i < j < |calls| && First(calls, i) && calls[j].key == calls[i].key
    ensures Run(calls[..j + 1]) == Run(calls[..j])
    ensures Returned(calls, j) == Returned(calls, i).(reused := true)
  {
    ReceiptPersists(calls, i, j);
    Step(calls, j);
  }

  /** The receipt table refines the reference semantics: every target holds the merge of first applications. */
  lemma {:induction false} TargetIsMergeOfFirsts(calls: seq<Call>, t: Target)
    ensures Current(Run(calls), t) == Folded(calls, t)
  {
    if |calls| != 0 {
      var n := |calls| - 1;
      TargetIsMergeOfFirsts(calls[..n], t);
      FirstHasNoReceipt(calls, n);
    }
  }

  /** Receipts of one target chain: nothing but first applications on t lie between two of them, so when none
      does, the later one starts from exactly what the earlier one left. */
  lemma {:induction false} ReceiptsChain(calls: seq<Call>, i: nat, j: nat)
    requires i < j < |calls| && First(calls, i) && First(calls, j) && calls[i].target == calls[j].target
    requires forall k :: i < k < j && calls[k].target == calls[i].target ==> !First(calls, k)
    ensures Returned(calls, j).before == Returned(calls, i).after
  {
    StateBetween(calls, i, j);
    FirstHasNoReceipt(calls, j);
  }

  lemma {:induction false} StateBetween(calls: seq<Call>, i: nat, n: nat)
    requires i < n <= |calls| && First(calls, i)
    requires forall k :: i < k < n && calls[k].target == calls[i].target ==> !First(calls, k)
    ensures Current(Run(calls[..n]), calls[i].target) == Returned(calls, i).after
  {
    Step(calls, n - 1);
    FirstHasNoReceipt(calls, n - 1);
    CurrentAfter(Run(calls[..n - 1]), calls[n - 1], calls[i].target);
    if n > i + 1 { StateBetween(calls, i, n - 1); }
  }

  lemma CurrentAfter(s: State, c: Call, t: Target)
    ensures Current(Apply(s, c).0, t) ==
            if c.key !in s.receipts && c.target == t then Apply(s, c).1.after else Current(s, t)
  {
  }

  lemma ExecutesAsPreviewed(s: State, c: Call)
    requires c.key !in s.receipts
    ensures Apply(s, c).1.(mode := DryRun) == PreviewOf(s, c.target, c.desired)
    ensures Current(Apply(s, c).0, c.target) == PreviewOf(s, c.target, c.desired).after
    ensures forall t :: t != c.target ==> Current(Apply(s, c).0, t) == Current(s, t)
  {
  }

  /** The target stays as it is until a fresh key reaches it, however many calls on other targets and replays come. */
  lemma {:induction false} UntouchedBetween(calls: seq<Call>, i: nat, j: nat, t: Target)
    requires i <= j <= |calls| && forall k :: i <= k < j && calls[k].target == t ==> !First(calls, k)
    ensures Current(Run(calls[..j]), t) == Current(Run(calls[..i]), t)
  {
    if i < j {
      UntouchedBetween(calls, i, j - 1, t);
      Step(calls, j - 1);
      FirstHasNoReceipt(calls, j - 1);
      CurrentAfter(Run(calls[..j - 1]), calls[j - 1], t);
    }
  }

  /** A dry run promises exactly what an execution under a fresh key does, now or later, as long as no other fresh key
      reaches the target in between; and the execution touches nothing else. */
  lemma PreviewPredictsExecute(calls: seq<Call>, i: nat, j: nat)
    requires i <= j < |calls| && First(calls, j)
    requires forall k :: i <= k < j && calls[k].target == calls[j].target ==> !First(calls, k)
    ensures var preview := PreviewOf(Run(calls[..i]), calls[j].target, calls[j].desired);
            && Returned(calls, j).(mode := DryRun) == preview
            && Current(Run(calls[..j + 1]), calls[j].target) == preview.after
            && forall t :: t != calls[j].target ==> Current(Run(calls[..j + 1]), t) == Current(Run(calls[..j]), t)
  {
    hide Run, First;
    UntouchedBetween(calls, i, j, calls[j].target);
    FirstHasNoReceipt(calls, j);
    Step(calls, j);
    ExecutesAsPreviewed(Run(calls[..j]), calls[j]);
  }

  // ----- Typed handlers -----

  datatype Request = Request(action: Action, target: string, parameters: Params, key: string)

  predicate Typed(action: Action) {
    action in {RestartPod, ResizeConnectionPool, ToggleFeatureFlag, PurgeCache}
  }

  predicate ValidRequest(r: Request) { r.key != "" && Validate(r.action, r.target, r.parameters) }

  /** The single store call a typed handler makes for a valid request. */
  function HandlerCall(r: Request): Call
    requires Typed(r.action) && ValidRequest(r)
  {
    match r.action
    case RestartPod =>
      var (namespace, pod) := Cut(r.target);
      Call(r.key, r.action, Target(PodKind, r.target),
           map[Namespace := Str(namespace), Pod := Str(pod), RestartToken := Str(r.key)])
    case ResizeConnectionPool =>
      Call(r.key, r.action, Target(PoolKind, r.target), map[MaxConnections := Int(Integer(r.parameters[Size]).value)])
    case ToggleFeatureFlag =>
      Call(r.key, r.action, Target(FlagKind, r.target), map[FlagEnabled := r.parameters[Enabled]])
    case PurgeCache =>
      Call(r.key, r.action, Target(CacheKind, r.target),
           map[MaxKeysField := Int(Integer(r.parameters[MaxKeys]).value), PurgeToken := Str(r.key)])
  }

  predicate IntField(doc: Doc, f: Field, low: int, high: int) {
    f in doc && doc[f].Int? && low <= doc[f].i <= high
  }

  function Fields(kind: Kind): set<Field> {
    match kind
    case PodKind => {Namespace, Pod, RestartToken}
    case PoolKind => {MaxConnections}
    case FlagKind => {FlagEnabled}
    case CacheKind => {MaxKeysField, PurgeToken}
  }

  /** The catalog bounds, read off a target's stored state. */
  predicate WithinBounds(t: Target, doc: Doc) {
    && doc.Keys == Fields(t.kind)
    && match t.kind
       case PoolKind => ValidDNSLabel(t.name) && IntField(doc, MaxConnections, 2, 50)
       case FlagKind => t.name in ALLOWED_FLAGS && FlagEnabled in doc && doc[FlagEnabled].Bool?
       case CacheKind => ValidCachePrefix(t.name) && IntField(doc, MaxKeysField, 1, 1000)
       case PodKind =>
         && ValidPodTarget(t.name) && Namespace in doc && Pod in doc
         && (doc[Namespace], doc[Pod]) == (Str(Cut(t.name).0), Str(Cut(t.name).1))
  }

  predicate Holds(doc: Doc, f: Field, value: Param) { f in doc && doc[f] == value }

  /** The target and the stored fields are the ones the request asks for. */
  predicate AsAsked(r: Request, t: Target, doc: Doc) {
    && t.name == r.target
    && match r.action
       case RestartPod =>
         && t.kind == PodKind && Holds(doc, RestartToken, Str(r.key))
         && Namespace in doc && doc[Namespace].Str? && Pod in doc && doc[Pod].Str?
         && r.target == doc[Namespace].s + "/" + doc[Pod].s && '/' !in doc[Namespace].s
       case ResizeConnectionPool =>
         && t.kind == PoolKind && MaxConnections in doc && doc[MaxConnections].Int?
         && Size in r.parameters && NamesNumber(r.parameters[Size], doc[MaxConnections].i)
       case ToggleFeatureFlag =>
         && t.kind == FlagKind && Enabled in r.parameters && r.parameters[Enabled].Bool?
         && Holds(doc, FlagEnabled, Bool(r.parameters[Enabled].b))
       case PurgeCache =>
         && t.kind == CacheKind && MaxKeysField in doc && doc[MaxKeysField].Int? && Holds(doc, PurgeToken, Str(r.key))
         && MaxKeys in r.parameters && NamesNumber(r.parameters[MaxKeys], doc[MaxKeysField].i)
       case _ => false
  }

  lemma HandlerWritesAsAsked(r: Request)
    requires Typed(r.action) && ValidRequest(r)
    ensures AsAsked(r, HandlerCall(r).target, HandlerCall(r).desired)
  {
    hide ValidDNSLabel, ValidCachePrefix;
    if r.action == RestartPod {
      var (n, p) := Cut(r.target);
      assert r.target == n + "/" + p;
    }
  }

  lemma MergeKeepsAsked(r: Request, t: Target, before: Doc, desired: Doc)
    requires AsAsked(r, t, desired)
    ensures AsAsked(r, t, Merge(before, desired))
  {
    var doc := Merge(before, desired);
    assert forall f :: f in desired ==> f in doc && doc[f] == desired[f];
  }

  /** After the first execution of its key the target a typed request names holds what the request asks for: the flag
      as requested, the number requested, the namespace and pod of the target, and the key as token. */
  lemma ExecutionStoresWhatWasAsked(calls: seq<Call>, j: nat, r: Request)
    requires j < |calls| && First(calls, j) && Typed(r.action) && ValidRequest(r) && calls[j] == HandlerCall(r)
    ensures var t := HandlerCall(r).target;
            && t in Run(calls[..j + 1]).targets && AsAsked(r, t, Run(calls[..j + 1]).targets[t])
            && Returned(calls, j).target == t && AsAsked(r, t, Returned(calls, j).after)
  {
    hide Run, First, HandlerCall, AsAsked, ValidRequest, Merge;
    FirstHasNoReceipt(calls, j);
    Step(calls, j);
    HandlerWritesAsAsked(r);
    MergeKeepsAsked(r, calls[j].target, Current(Run(calls[..j]), calls[j].target), calls[j].desired);
  }

  ghost predicate FromHandler(c: Call) {
    exists r: Request :: Typed(r.action) && ValidRequest(r) && c == HandlerCall(r)
  }

  lemma HandlerWritesWithinBounds(r: Request)
    requires Typed(r.action) && ValidRequest(r)
    ensures WithinBounds(HandlerCall(r).target, HandlerCall(r).desired)
  {
    hide Cut, ValidDNSLabel, ValidCachePrefix, Integer;
    var c := HandlerCall(r);
    match r.action
    case RestartPod => assert c.desired.Keys == {Namespace, Pod, RestartToken};
    case ResizeConnectionPool => assert c.desired.Keys == {MaxConnections};
    case ToggleFeatureFlag => assert c.desired.Keys == {FlagEnabled};
    case PurgeCache => assert c.desired.Keys == {MaxKeysField, PurgeToken};
  }

  /** Whatever the history of typed-handler executions, every stored target stays inside the catalog bounds. */
  lemma {:induction false} StoredStateStaysInBounds(calls: seq<Call>, t: Target)
    requires forall i :: 0 <= i < |calls| ==> FromHandler(calls[i])
    requires t in Run(calls).targets
    ensures WithinBounds(t, Run(calls).targets[t])
  {
    hide FromHandler, WithinBounds, Merge;
    var n := |calls| - 1;
    var s := Run(calls[..n]);
    var c := calls[n];
    if t in s.targets { StoredStateStaysInBounds(calls[..n], t); }
    if c.key !in s.receipts && c.target == t { MergeWithinBounds(c, Current(s, t)); }
  }

  lemma MergeWithinBounds(c: Call, doc: Doc)
    requires FromHandler(c) && (doc == map[] || WithinBounds(c.target, doc))
    ensures WithinBounds(c.target, Merge(doc, c.desired))
  {
    hide HandlerCall, ValidRequest;
    var r: Request :| Typed(r.action) && ValidRequest(r) && c == HandlerCall(r);
    HandlerWritesWithinBounds(r);
    assert Merge(doc, c.desired) == c.desired;
  }

  // ----- The store, updated in place -----

  class Store {
    var targets: map<Target, Doc>
    var receipts: map<string, Result>

    ghost function View(): State
      reads this
    {
      State(targets, receipts)
    }

    constructor ()
      ensures View() == EMPTY
    {
      targets := map[];
      receipts := map[];
    }

    /** Copies one map and then the other, key by key, in no particular order. */
    static method MergeState(current: Doc, desired: Doc) returns (merged: Doc)
      ensures merged == Merge(current, desired)
    {
      merged := map[];
      var keys := current.Keys;
      while keys != {}
        invariant keys <= current.Keys
        invariant merged == map k | k in current && k !in keys :: current[k]
        decreases keys
      {
        var k :| k in keys;
        merged := merged[k := current[k]];
        keys := keys - {k};
      }
      assert merged == current;
      keys := desired.Keys;
      while keys != {}
        invariant keys <= desired.Keys
        invariant merged == current + (map k | k in desired && k !in keys :: desired[k])
        decreases keys
      {
        var k :| k in keys;
        merged := merged[k := desired[k]];
        keys := keys - {k};
      }
      assert (map k | k in desired && k !in keys :: desired[k]) == desired;
    }

    method Preview(t: Target, desired: Doc) returns (result: Result)
      ensures result == PreviewOf(View(), t, desired)
    {
      var current: Doc := if t in targets then targets[t] else map[];
      var after := MergeState(current, desired);
      result := Result(DryRun, t, current, after, false);
    }

    method ApplyOnce(c: Call) returns (result: Result)
      modifies this
      ensures (View(), result) == Apply(old(View()), c)
    {
      if c.key in receipts {
        return receipts[c.key].(reused := true);
      }
      var current: Doc := if c.target in targets then targets[c.target] else map[];
      var after := MergeState(current, c.desired);
      targets := targets[c.target := after];
      result := Result(Execute, c.target, current, after, false);
      receipts := receipts[c.key := result];
    }
  }
}
