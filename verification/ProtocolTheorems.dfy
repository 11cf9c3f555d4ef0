/** What the protocol guarantees over every run. */
module ProtocolTheorems {
  import opened Text
  import opened Catalog
  import opened RemediationStates
  import opened DispatchIds
  import opened Records
  import opened RecordInvariants
  import opened Protocol
  import opened ProtocolInvariants
  import ControlState

  // ----- Runs and their prefixes -----

  lemma StepAt(cfg: Config, steps: seq<Step>, n: nat)
    requires n < |steps|
    ensures StateAt(cfg, steps, n + 1) == Next(cfg, StateAt(cfg, steps, n), steps[n])
  {
    assert steps[..n + 1][..n] == steps[..n];
  }

  /** Rows appear only where a proposal creates them. */
  lemma NewRows(cfg: Config, s: System, step: Step, rid: RemId)
    requires rid in Next(cfg, s, step).table && rid !in s.table && SystemInv(cfg, s)
    ensures step.Create? && Next(cfg, s, step).table[rid] == Propose(cfg, step.input, step.proposer, step.key)
  {
    hide Propose, Transact, SystemInv, RequestApproval, Finish, Claim;
    if step.Commit? && step.d in s.dispatchers { MarkRowsSameKeys(s.table, s.dispatchers[step.d].done); }
  }

  lemma {:induction false} MarkRowsSameKeys(t: Table, done: seq<(Item, Outcome)>)
    ensures MarkRows(t, done).Keys == t.Keys
  {
    if |done| > 0 { MarkRowsSameKeys(t, done[..|done| - 1]); }
  }

  /** Every status write of every actor is a move the transition table allows, and none leaves a terminal status
      (although the table would let failed work be approved again). */
  lemma StatusMovesAreLegal(cfg: Config, steps: seq<Step>, n: nat, rid: RemId)
    requires n < |steps| && rid in StateAt(cfg, steps, n).table
    ensures rid in StateAt(cfg, steps, n + 1).table
    ensures var before, after := StateAt(cfg, steps, n).table[rid].rem, StateAt(cfg, steps, n + 1).table[rid].rem;
            CanTransition(before.status, after.status) && (IsTerminal(before.status) ==> after.status == before.status)
  {
    StepAt(cfg, steps, n);
    RunHolds(cfg, steps[..n]);
    NextKeeps(cfg, StateAt(cfg, steps, n), steps[n]);
  }

  /** What persists between any two moments of a run. */
  predicate Persists(r: Record, s: Record) {
    && SameRequestedWork(r.rem, s.rem)
    && (IsTerminal(r.rem.status) ==> s.rem.status == r.rem.status)
    && (r.request.Some? && r.request.value.status != ReqPending ==> s.request == r.request)
    && Grows(r.outbox, s.outbox) && r.trail <= s.trail
  }

  /** Terminal statuses and decided requests are final, outbox rows and audit entries are never taken back. */
  lemma {:induction false} NothingFinalIsUndone(cfg: Config, steps: seq<Step>, m: nat, n: nat, rid: RemId)
    requires m <= n <= |steps| && rid in StateAt(cfg, steps, m).table
    ensures rid in StateAt(cfg, steps, n).table
    ensures Persists(StateAt(cfg, steps, m).table[rid], StateAt(cfg, steps, n).table[rid])
  {
    hide Run, Next, SystemInv, Persists;
    if m < n {
      NothingFinalIsUndone(cfg, steps, m, n - 1, rid);
      StepAt(cfg, steps, n - 1);
      RunHolds(cfg, steps[..n - 1]);
      StepPersists(cfg, StateAt(cfg, steps, m).table[rid], StateAt(cfg, steps, n - 1), steps[n - 1], rid);
    } else {
      SelfPersists(StateAt(cfg, steps, m).table[rid]);
    }
  }

  lemma SelfPersists(r: Record)
    ensures Persists(r, r)
  {
  }

  lemma StepPersists(cfg: Config, a: Record, s: System, step: Step, rid: RemId)
    requires SystemInv(cfg, s) && rid in s.table && Persists(a, s.table[rid])
    ensures rid in Next(cfg, s, step).table && Persists(a, Next(cfg, s, step).table[rid])
  {
    hide Next, SystemInv;
    NextKeeps(cfg, s, step);
    EvolvedPersists(a, s.table[rid], Next(cfg, s, step).table[rid]);
  }

  lemma EvolvedPersists(a: Record, b: Record, c: Record)
    requires Persists(a, b) && Evolves(b, c)
    ensures Persists(a, c)
  {
    GrowsTransitive(a.outbox, b.outbox, c.outbox);
  }

  // ----- Who may run -----

  /** A handler runs for anything but diagnostics only once somebody other than the proposer has approved it in
      time and with a reason. */
  lemma HandlersRunOnlyApproved(cfg: Config, steps: seq<Step>, i: nat)
    requires i < |Run(cfg, steps).invocations|
    ensures var s := Run(cfg, steps);
            var v := s.invocations[i];
            v.rid in s.table && SameRequestedWork(v.snap, s.table[v.rid].rem) &&
            (v.snap.action != CollectDiagnostics ==>
               && s.table[v.rid].request.Some? && GoodApproval(cfg, v.snap.proposedBy, s.table[v.rid].request.value)
               && (!cfg.allowSelf ==> s.table[v.rid].request.value.decidedBy != v.snap.proposedBy))
  {
    hide Run, Different, Visible;
    RunHolds(cfg, steps);
    InvocationApproved(cfg, Run(cfg, steps), i);
    var v := Run(cfg, steps).invocations[i];
    if v.snap.action != CollectDiagnostics {
      DifferentMeans(cfg.orbit, v.snap.proposedBy, Run(cfg, steps).table[v.rid].request.value.decidedBy);
    }
  }

  lemma InvocationApproved(cfg: Config, s: System, i: nat)
    requires SystemInv(cfg, s) && i < |s.invocations|
    ensures var v := s.invocations[i];
            v.rid in s.table && SameRequestedWork(v.snap, s.table[v.rid].rem) &&
            (v.snap.action != CollectDiagnostics ==>
               s.table[v.rid].request.Some? && GoodApproval(cfg, v.snap.proposedBy, s.table[v.rid].request.value))
  {
    assert InvocationHolds(cfg, s.table, s.invocations[i]);
    QueuedIsApproved(cfg, s.table[s.invocations[i].rid], s.invocations[i].snap);
  }

  lemma QueuedIsApproved(cfg: Config, r: Record, snap: Remediation)
    requires Gated(cfg, r) && Boxed(r) && r.rem.queuedAt.Some? && SameRequestedWork(snap, r.rem)
    ensures snap.action != CollectDiagnostics ==> r.request.Some? && GoodApproval(cfg, snap.proposedBy, r.request.value)
  {
    assert Cleared(r);
  }

  /** A worker's own checks never stop work the policy let through, except for want of a handler or of a key: what was
      validated when it was proposed is still so when it runs. */
  lemma RunsExactlyWithAHandler(cfg: Config, steps: seq<Step>, rid: RemId)
    requires rid in Run(cfg, steps).table && Dispatchable(Run(cfg, steps).table[rid].rem.status)
    ensures var rem := Run(cfg, steps).table[rid].rem;
            Runnable(cfg, rem) <==>
              && rem.action in cfg.handlers
              && (rem.action in {RestartPod, ResizeConnectionPool, ToggleFeatureFlag, PurgeCache} ==> rem.key != "")
  {
    hide Run, Validate, Budgeted, Audited, GoodApproval, StreamHolds, BatchesHold, WorkersHold, InvocationsHold, CallsHold;
    RunHolds(cfg, steps);
    assert Inv(cfg, Run(cfg, steps).table[rid]);
  }

  /** The handlers a worker registers. Diagnostics are not among them. */
  const DEFAULT_HANDLERS: set<Action> := {
    RestartService, RollbackConfig, ReloadNginx, ClearRedisKeyspace, DrainPostgresConnections, RevertFeatureFlag,
    DisableBadRoute, RestartPod, ResizeConnectionPool, ToggleFeatureFlag, PurgeCache
  }

  /** With the handlers a worker registers, nothing at all runs unapproved. */
  lemma DefaultWorkersRunOnlyApproved(cfg: Config, steps: seq<Step>, i: nat)
    requires cfg.handlers == DEFAULT_HANDLERS && i < |Run(cfg, steps).invocations|
    ensures var s := Run(cfg, steps);
            var v := s.invocations[i];
            v.rid in s.table && s.table[v.rid].request.Some? && GoodApproval(cfg, v.snap.proposedBy, s.table[v.rid].request.value)
  {
    hide Run;
    HandlersRunOnlyApproved(cfg, steps, i);
    RunHolds(cfg, steps);
    assert InvocationHolds(cfg, Run(cfg, steps).table, Run(cfg, steps).invocations[i]);
  }

  /** Work that is cancelled at any moment of a run is never handed to a handler, before or after that moment. */
  lemma CancelledNeverRuns(cfg: Config, steps: seq<Step>, n: nat, rid: RemId, i: nat)
    requires n <= |steps| && rid in StateAt(cfg, steps, n).table
    requires StateAt(cfg, steps, n).table[rid].rem.status == Cancelled
    requires i < |Run(cfg, steps).invocations|
    ensures Run(cfg, steps).invocations[i].rid != rid
  {
    hide Run, Inv, Grows, SameRequestedWork, Runnable, StreamHolds, BatchesHold, WorkersHold, CallsHold;
    NothingFinalIsUndone(cfg, steps, n, |steps|, rid);
    assert steps[..|steps|] == steps;
    RunHolds(cfg, steps);
    assert InvocationHolds(cfg, Run(cfg, steps).table, Run(cfg, steps).invocations[i]);
  }

  // ----- Approval -----

  /** The approval request and the remediation row agree in every reachable state. */
  lemma ApprovalAndRemediationAgree(cfg: Config, steps: seq<Step>, rid: RemId)
    requires rid in Run(cfg, steps).table
    ensures var r := Run(cfg, steps).table[rid];
            && (r.request.None? && r.rem.allowed && r.rem.requiresApproval ==> r.rem.status == AwaitingApproval)
            && (r.request.Some? ==>
                  && r.request.value.requestedBy == r.rem.proposedBy
                  && (r.request.value.status == ReqPending <==> r.rem.status == AwaitingApproval)
                  && (r.request.value.status == ReqDenied <==> r.rem.status == Rejected)
                  && (r.request.value.status == ReqExpired ==> r.rem.status == TimedOut)
                  && (r.request.value.status == ReqCancelled ==> r.rem.status == Cancelled)
                  && (r.request.value.status == ReqApproved ==> MayRun(r.rem.status)))
  {
    hide Run, GoodApproval, Boxed, Budgeted, Audited, StreamHolds, BatchesHold, WorkersHold, InvocationsHold, CallsHold;
    RunHolds(cfg, steps);
    assert Inv(cfg, Run(cfg, steps).table[rid]);
  }

  /** Reading only a remediation's audit entries gives its stored status, up to a claim that is not recorded. */
  lemma LedgerTellsStatus(cfg: Config, steps: seq<Step>, rid: RemId)
    requires rid in Run(cfg, steps).table
    ensures Replayed(Run(cfg, steps).table[rid].trail) == Some(Settled(Run(cfg, steps).table[rid].rem.status))
  {
    hide Run;
    RunHolds(cfg, steps);
    assert Inv(cfg, Run(cfg, steps).table[rid]);
  }

  // ----- Outbox -----

  /** Reserved work always has a job to publish, no job of live work is skipped, and a skipped job stays moot. */
  lemma OutboxNeverStrandsWork(cfg: Config, steps: seq<Step>, n: nat, rid: RemId)
    requires n <= |steps| && rid in StateAt(cfg, steps, n).table
    ensures var r := StateAt(cfg, steps, n).table[rid];
            && (Dispatchable(r.rem.status) ==>
                  |r.outbox| > 0 && forall i :: 0 <= i < |r.outbox| ==> r.outbox[i].state != Skipped)
            && forall i :: 0 <= i < |r.outbox| && r.outbox[i].state == Skipped ==>
                 rid in Run(cfg, steps).table && IsTerminal(Run(cfg, steps).table[rid].rem.status)
  {
    hide Run, StreamHolds, BatchesHold, WorkersHold, InvocationsHold, CallsHold, Coupled, Gated, Budgeted, Audited, Grows;
    RunHolds(cfg, steps[..n]);
    assert Inv(cfg, StateAt(cfg, steps, n).table[rid]);
    NothingFinalIsUndone(cfg, steps, n, |steps|, rid);
    assert steps[..|steps|] == steps;
  }

  /** No two outbox rows, of one remediation or of two, are ever published under the same message id. */
  lemma MessageIdsAreDistinct(cfg: Config, steps: seq<Step>, a: RemId, i: nat, b: RemId, j: nat)
    requires a in Run(cfg, steps).table && i < |Run(cfg, steps).table[a].outbox|
    requires b in Run(cfg, steps).table && j < |Run(cfg, steps).table[b].outbox|
    requires (a, i) != (b, j)
    ensures Render(Run(cfg, steps).table[a].outbox[i].id) != Render(Run(cfg, steps).table[b].outbox[j].id)
  {
    hide Run, Render, StreamHolds, BatchesHold, WorkersHold, InvocationsHold, CallsHold, Coupled, Gated, Budgeted, Audited;
    RunHolds(cfg, steps);
    var t := Run(cfg, steps).table;
    assert Inv(cfg, t[a]) && Inv(cfg, t[b]);
    RenderInjective(t[a].outbox[i].id, t[b].outbox[j].id);
  }

  /** JetStream holds a second copy of a message only once its duplicate window has passed, however often a
      dispatcher died between publishing and committing. */
  lemma {:induction false} SecondCopyNeedsExpiredWindow(cfg: Config, steps: seq<Step>, i: nat, j: nat)
    requires i < j < |Run(cfg, steps).stream| && Run(cfg, steps).stream[i].id == Run(cfg, steps).stream[j].id
    ensures var stream := Run(cfg, steps).stream;
            stream[i].storedAt + cfg.duplicateWindow <= stream[j].storedAt <= Run(cfg, steps).clock
  {
    hide Run;
    RunHolds(cfg, steps);
    assert MessageHolds(Run(cfg, steps), Run(cfg, steps).stream[j]);
  }

  // ----- Redispatch budget -----

  function Replays(o: seq<Dispatch>): nat {
    if |o| == 0 then 0 else Replays(o[..|o| - 1]) + if o[|o| - 1].reason == Replay then 1 else 0
  }

  lemma {:induction false} RowsByReason(o: seq<Dispatch>)
    requires |o| > 0 && o[0].reason == Execute && forall i :: 0 < i < |o| ==> o[i].reason != Execute
    ensures |o| == 1 + Replays(o) + TotalRedispatches(o)
  {
    if |o| > 1 { RowsByReason(o[..|o| - 1]); }
  }

  lemma BudgetArithmetic(rows: nat, replays: nat, total: nat, since: nat, max: nat)
    requires rows == 1 + replays + total && since <= max && total <= max * (rows - total - 1) + since
    ensures rows <= (replays + 1) * (max + 1)
  {
    assert rows - total - 1 == replays;
    assert (replays + 1) * (max + 1) == replays * max + replays + max + 1;
    assert max * replays == replays * max;
  }

  /** k replays allow at most (k + 1) * (MaxRedispatches + 1) jobs, whatever the clocks of the writers say. */
  lemma RedispatchBudget(cfg: Config, steps: seq<Step>, rid: RemId)
    requires rid in Run(cfg, steps).table
    ensures var o := Run(cfg, steps).table[rid].outbox;
            Redispatches(o) <= cfg.maxRedispatches && |o| <= (Replays(o) + 1) * (cfg.maxRedispatches + 1)
  {
    hide Run, TotalRedispatches, Redispatches, Replays, Coupled, Gated, Audited, Boxed, Budgeted;
    hide StreamHolds, BatchesHold, WorkersHold, InvocationsHold, CallsHold;
    RunHolds(cfg, steps);
    assert Inv(cfg, Run(cfg, steps).table[rid]);
    RecordBudget(cfg, Run(cfg, steps).table[rid]);
  }

  lemma RecordBudget(cfg: Config, r: Record)
    requires Boxed(r) && Budgeted(cfg, r)
    ensures Redispatches(r.outbox) <= cfg.maxRedispatches
    ensures |r.outbox| <= (Replays(r.outbox) + 1) * (cfg.maxRedispatches + 1)
  {
    if |r.outbox| > 0 {
      RowsByReason(r.outbox);
      BudgetArithmetic(|r.outbox|, Replays(r.outbox), TotalRedispatches(r.outbox), Redispatches(r.outbox), cfg.maxRedispatches);
    }
  }

  /** Each eligible reconciler pass either times the work out or spends one unit of its budget on a fresh pending
      job; without a live worker for the action, nothing changes. */
  lemma ReconcileSpendsBudget(cfg: Config, steps: seq<Step>, rid: RemId, hasWorker: bool, now: Time)
    requires rid in Run(cfg, steps).table
    ensures Spends(cfg, Run(cfg, steps).table[rid], hasWorker, now)
  {
    hide Run;
    RunHolds(cfg, steps);
    PassSpends(cfg, Run(cfg, steps).table[rid], hasWorker, now);
  }

  predicate Spends(cfg: Config, r: Record, hasWorker: bool, now: Time) {
    var after := Reconcile(cfg, r, hasWorker, now);
    if !hasWorker || !Stuck(cfg, r, now) then after == r
    else if Redispatches(r.outbox) == cfg.maxRedispatches then after.rem.status == TimedOut && after.outbox == r.outbox
    else
      && after.rem == r.rem && Redispatches(after.outbox) == Redispatches(r.outbox) + 1 <= cfg.maxRedispatches
      && |after.outbox| == |r.outbox| + 1 && after.outbox[|r.outbox|].state == Pending
      && !HasId(r.outbox, after.outbox[|r.outbox|].id)
  }

  lemma PassSpends(cfg: Config, r: Record, hasWorker: bool, now: Time)
    requires Inv(cfg, r)
    ensures Spends(cfg, r, hasWorker, now)
  {
    hide Coupled, Gated, Audited;
    if hasWorker && Stuck(cfg, r, now) && Redispatches(r.outbox) < cfg.maxRedispatches {
      assert forall i :: 0 <= i < |r.outbox| ==> Quiet(cfg, r.outbox[i], now);
      SendAgainKeeps(cfg, r, Redispatch, now);
      NextIdIsFresh(r, Redispatch);
    }
  }

  // ----- Effects -----

  lemma CallSource(s: System, c: nat) returns (i: nat)
    requires CallsHold(s) && c < |s.calls|
    ensures i < |s.invocations| && HasEffect(s.invocations[i].snap) && s.calls[c] == CallOf(s.invocations[i].snap)
  {
    assert CallHolds(s.invocations, s.calls[c]);
    i :| 0 <= i < |s.invocations| && HasEffect(s.invocations[i].snap) && s.calls[c] == CallOf(s.invocations[i].snap);
  }

  /** A call's key and action are those of the remediation its invocation belongs to. */
  lemma CallOwner(cfg: Config, s: System, c: nat) returns (i: nat)
    requires SystemInv(cfg, s) && c < |s.calls|
    ensures i < |s.invocations| && HasEffect(s.invocations[i].snap) && s.calls[c] == CallOf(s.invocations[i].snap)
    ensures s.calls[c].key == s.invocations[i].snap.key && s.calls[c].action == s.invocations[i].snap.action
    ensures InvocationHolds(cfg, s.table, s.invocations[i])
  {
    hide RecordsHold, StreamHolds, BatchesHold, WorkersHold, InvocationHolds, WantsHold, KeysDiffer, CallsHold;
    i := CallSource(s, c);
  }

  ghost predicate ApprovedSource(cfg: Config, s: System, c: ControlState.Call, rid: RemId) {
    && rid in s.table && s.table[rid].rem.key == c.key && s.table[rid].rem.action == c.action
    && !s.table[rid].rem.dryRun && Started(s.table[rid].rem.status)
    && ControlState.AsAsked(HandlerRequest(s.table[rid].rem), c.target, c.desired)
    && s.table[rid].request.Some? && GoodApproval(cfg, s.table[rid].rem.proposedBy, s.table[rid].request.value)
  }

  lemma CallApproved(cfg: Config, s: System, c: nat) returns (rid: RemId)
    requires SystemInv(cfg, s) && c < |s.calls|
    ensures ApprovedSource(cfg, s, s.calls[c], rid)
  {
    hide SystemInv, CallOf, Runnable, Gated, GoodApproval;
    var i := CallOwner(cfg, s, c);
    InvocationApproved(cfg, s, i);
    rid := s.invocations[i].rid;
    CallIsAsked(s.invocations[i].snap);
    assert HandlerRequest(s.table[rid].rem) == HandlerRequest(s.invocations[i].snap);
  }

  lemma CallIsAsked(snap: Remediation)
    requires HasEffect(snap)
    ensures ControlState.AsAsked(HandlerRequest(snap), CallOf(snap).target, CallOf(snap).desired)
  {
    ControlState.HandlerWritesAsAsked(HandlerRequest(snap));
  }

  /** Whatever a worker runs has its effect exactly if it is to be executed and its action is one of the four with
      state of their own: nothing else stands between a started handler and its call. */
  lemma EffectsExactlyOfExecutedTypedWork(cfg: Config, steps: seq<Step>, i: nat)
    requires i < |Run(cfg, steps).invocations|
    ensures var snap := Run(cfg, steps).invocations[i].snap;
            HasEffect(snap) <==>
              !snap.dryRun && snap.action in {RestartPod, ResizeConnectionPool, ToggleFeatureFlag, PurgeCache}
  {
    hide Run, Validate, Inv;
    RunHolds(cfg, steps);
    assert InvocationHolds(cfg, Run(cfg, steps).table, Run(cfg, steps).invocations[i]);
  }

  /** Every control-state call comes from one remediation and writes what that asks for. It was approved in time by somebody else, was reserved
      to execute rather than to preview, and was never cancelled. */
  lemma EffectsAreApproved(cfg: Config, steps: seq<Step>, c: nat) returns (rid: RemId)
    requires c < |Run(cfg, steps).calls|
    ensures ApprovedSource(cfg, Run(cfg, steps), Run(cfg, steps).calls[c], rid)
  {
    hide Run, SystemInv, ApprovedSource;
    RunHolds(cfg, steps);
    rid := CallApproved(cfg, Run(cfg, steps), c);
  }

  /** Calls that share a key are the same call, so a reused receipt is always the caller's own. */
  lemma SameKeySameCall(cfg: Config, steps: seq<Step>, c: nat, d: nat)
    requires c < |Run(cfg, steps).calls| && d < |Run(cfg, steps).calls|
    requires Run(cfg, steps).calls[c].key == Run(cfg, steps).calls[d].key
    ensures Run(cfg, steps).calls[c] == Run(cfg, steps).calls[d]
  {
    hide Run;
    RunHolds(cfg, steps);
    KeyDeterminesCall(cfg, Run(cfg, steps), c, d);
  }

  lemma KeyDeterminesCall(cfg: Config, s: System, c: nat, d: nat)
    requires SystemInv(cfg, s) && c < |s.calls| && d < |s.calls| && s.calls[c].key == s.calls[d].key
    ensures s.calls[c] == s.calls[d]
  {
    var i := CallOwner(cfg, s, c);
    var j := CallOwner(cfg, s, d);
    assert s.table[s.invocations[i].rid].rem.key == s.table[s.invocations[j].rid].rem.key;
  }

  lemma CallsComeFromHandlers(cfg: Config, steps: seq<Step>)
    ensures forall c :: 0 <= c < |Run(cfg, steps).calls| ==> ControlState.FromHandler(Run(cfg, steps).calls[c])
  {
    hide Run;
    RunHolds(cfg, steps);
    forall c | 0 <= c < |Run(cfg, steps).calls| ensures ControlState.FromHandler(Run(cfg, steps).calls[c]) {
      var i := CallSource(Run(cfg, steps), c);
    }
  }

  /** Of all the invocations of one remediation, redelivered or replayed, at most the first changes a target, and
      whatever it writes stays inside the catalog bounds. */
  lemma EachRemediationChangesItsTargetOnce(cfg: Config, steps: seq<Step>, c: nat, d: nat)
    requires c < d < |Run(cfg, steps).calls| && Run(cfg, steps).calls[c].key == Run(cfg, steps).calls[d].key
    ensures ControlState.Run(Run(cfg, steps).calls[..d + 1]) == ControlState.Run(Run(cfg, steps).calls[..d])
    ensures forall t :: t in ControlState.Run(Run(cfg, steps).calls).targets ==>
              ControlState.WithinBounds(t, ControlState.Run(Run(cfg, steps).calls).targets[t])
  {
    var calls := Run(cfg, steps).calls;
    ControlState.FirstHasNoReceipt(calls, d);
    ControlState.Step(calls, d);
    CallsComeFromHandlers(cfg, steps);
    forall t | t in ControlState.Run(calls).targets
      ensures ControlState.WithinBounds(t, ControlState.Run(calls).targets[t])
    {
      ControlState.StoredStateStaysInBounds(calls, t);
    }
  }
}
