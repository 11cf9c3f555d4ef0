/** How long the reconciler goes on: between two replays it sends stuck work again a bounded number of times and then
    gives it up, whatever every other actor does in the meantime. */
module RedispatchLimit {
  import opened Text
  import opened RemediationStates
  import opened DispatchIds
  import opened Records
  import opened RecordInvariants
  import opened Protocol
  import opened ProtocolInvariants
  import opened ProtocolTheorems

  // ----- A growing outbox without replays -----

  lemma {:induction false} SameRowsSameReplays(o: seq<Dispatch>, p: seq<Dispatch>)
    requires |o| == |p| && Grows(o, p)
    ensures Replays(o) == Replays(p)
  {
    if |o| > 0 {
      var n := |o| - 1;
      assert SameRow(o[n], p[n]);
      SameRowsSameReplays(o[..n], p[..n]);
    }
  }

  /** Rows are only added, and only a replay takes the reconciler's count back. */
  lemma {:induction false} CountsGrow(o: seq<Dispatch>, p: seq<Dispatch>)
    requires Grows(o, p) && forall i :: 0 < i < |p| ==> p[i].reason != Execute
    ensures Replays(o) <= Replays(p)
    ensures Replays(o) == Replays(p) ==> Redispatches(o) <= Redispatches(p)
  {
    if |o| == |p| {
      SameRowsSameReplays(o, p);
      SameRowsSameCounts(o, p, LastReset(o));
    } else {
      var n := |p| - 1;
      CountsGrow(o, p[..n]);
      assert p == p[..n] + [p[n]];
      AppendRow(p[..n], p[n]);
    }
  }

  /** A replay newer than every job before it renews the whole budget. */
  lemma ReplayRenewsBudget(cfg: Config, steps: seq<Step>, rid: RemId, now: Time)
    requires rid in Run(cfg, steps).table && Dispatchable(Run(cfg, steps).table[rid].rem.status)
    requires forall i :: 0 <= i < |Run(cfg, steps).table[rid].outbox| ==> Run(cfg, steps).table[rid].outbox[i].createdAt <= now
    ensures var o := Transact(cfg, Run(cfg, steps).table[rid], ToReplay(now)).outbox;
            |o| == |Run(cfg, steps).table[rid].outbox| + 1 && Redispatches(o) == 0
  {
    hide Run, SystemInv, Inv;
    RunHolds(cfg, steps);
    RecordInRun(cfg, Run(cfg, steps), rid);
    RenewedBy(cfg, Run(cfg, steps).table[rid], now);
  }

  lemma RecordInRun(cfg: Config, s: System, rid: RemId)
    requires SystemInv(cfg, s) && rid in s.table
    ensures Inv(cfg, s.table[rid])
  {
    hide Inv;
  }

  lemma RenewedBy(cfg: Config, r: Record, now: Time)
    requires Inv(cfg, r) && Dispatchable(r.rem.status) && forall i :: 0 <= i < |r.outbox| ==> r.outbox[i].createdAt <= now
    ensures |SendAgain(r, Replay, now).outbox| == |r.outbox| + 1 && Redispatches(SendAgain(r, Replay, now).outbox) == 0
  {
    hide Coupled, Gated, Budgeted, Audited, LastReset, RedispatchesAfter;
    NextIdIsFresh(r, Replay);
    var d := NewDispatch(NextId(r, Replay), Replay, now);
    AppendRow(r.outbox, d);
    ResetWithin(r.outbox, now);
    NoneAfter(r.outbox, now);
  }

  lemma {:induction false} ResetWithin(o: seq<Dispatch>, now: Time)
    requires forall i :: 0 <= i < |o| ==> o[i].createdAt <= now
    ensures LastReset(o).Some? ==> LastReset(o).value <= now
  {
    if |o| > 0 { ResetWithin(o[..|o| - 1], now); }
  }

  lemma {:induction false} NoneAfter(o: seq<Dispatch>, now: Time)
    requires forall i :: 0 <= i < |o| ==> o[i].createdAt <= now
    ensures RedispatchesAfter(o, Some(now)) == 0
  {
    if |o| > 0 { NoneAfter(o[..|o| - 1], now); }
  }

  // ----- When a pass is eligible -----

  function Later(a: Time, b: Time): Time { if a < b then b else a }

  /** When something last happened to a job: it was written or published. */
  function LastActivity(o: seq<Dispatch>): Time {
    if |o| == 0 then 0
    else
      var d := o[|o| - 1];
      Later(LastActivity(o[..|o| - 1]), if d.publishedAt.Some? then Later(d.createdAt, d.publishedAt.value) else d.createdAt)
  }

  predicate NothingPending(o: seq<Dispatch>) { forall i :: 0 <= i < |o| ==> o[i].state != Pending }

  /** The first moment at which the reconciler takes the work for stuck: its jobs have rested for a while, and it was
      queued, or has been running, for longer than it may. */
  function EligibleFrom(cfg: Config, r: Record): Time
    requires r.rem.queuedAt.Some? && (r.rem.status == Running ==> r.rem.startedAt.Some?)
  {
    Later(LastActivity(r.outbox) + cfg.redispatchAfter,
          1 + if r.rem.status == Running then r.rem.startedAt.value + cfg.runningStaleAfter
              else r.rem.queuedAt.value + cfg.redispatchAfter)
  }

  lemma {:induction false} QuietFrom(cfg: Config, o: seq<Dispatch>, now: Time)
    ensures (forall i :: 0 <= i < |o| ==> Quiet(cfg, o[i], now)) <==>
            NothingPending(o) && (|o| > 0 ==> LastActivity(o) + cfg.redispatchAfter <= now)
  {
    if |o| > 0 {
      var n := |o| - 1;
      QuietFrom(cfg, o[..n], now);
      assert forall i :: 0 <= i < n ==> o[..n][i] == o[i];
      if n == 0 { assert LastActivity(o[..0]) == 0; }
    }
  }

  /** In every run the reconciler takes a remediation for stuck exactly when it is queued or running, has no job left to
      send, and its time has come; once that is so it stays so until something happens to it. */
  lemma StuckExactlyFrom(cfg: Config, steps: seq<Step>, rid: RemId, now: Time)
    requires rid in Run(cfg, steps).table
    ensures var r := Run(cfg, steps).table[rid];
            Stuck(cfg, r, now) <==>
              && (r.rem.status == Queued || r.rem.status == Running) && NothingPending(r.outbox)
              && r.rem.queuedAt.Some? && (r.rem.status == Running ==> r.rem.startedAt.Some?) && EligibleFrom(cfg, r) <= now
  {
    hide Run, LastActivity, Coupled, Gated, Budgeted, Audited, Quiet, NothingPending;
    hide StreamHolds, BatchesHold, WorkersHold, InvocationsHold, CallsHold;
    RunHolds(cfg, steps);
    QuietFrom(cfg, Run(cfg, steps).table[rid].outbox, now);
    assert Boxed(Run(cfg, steps).table[rid]);
  }

  // ----- Eligible passes -----

  /** Step k is a reconciler pass that finds the remediation stuck and a live worker for its action. */
  predicate Eligible(cfg: Config, steps: seq<Step>, k: nat, rid: RemId)
    requires k < |steps|
  {
    && steps[k].OnRecord? && steps[k].rid == rid && steps[k].tx.ToReconcile? && steps[k].tx.hasWorker
    && rid in StateAt(cfg, steps, k).table && Stuck(cfg, StateAt(cfg, steps, k).table[rid], steps[k].tx.now)
  }

  /** How many of the steps from m to n are eligible passes. */
  function Passes(cfg: Config, steps: seq<Step>, m: nat, n: nat, rid: RemId): nat
    requires m <= n <= |steps|
    decreases n
  {
    if m == n then 0 else Passes(cfg, steps, m, n - 1, rid) + if Eligible(cfg, steps, n - 1, rid) then 1 else 0
  }

  function Given(r: Record): nat { if r.rem.status == TimedOut then 1 else 0 }

  /** A pass moves the count or gives the work up; no other step undoes either, short of a replay. */
  lemma StepSpends(cfg: Config, steps: seq<Step>, k: nat, rid: RemId)
    requires k < |steps| && rid in StateAt(cfg, steps, k).table
    ensures rid in StateAt(cfg, steps, k + 1).table
    ensures var r, s := StateAt(cfg, steps, k).table[rid], StateAt(cfg, steps, k + 1).table[rid];
            && Replays(r.outbox) <= Replays(s.outbox)
            && (Replays(r.outbox) == Replays(s.outbox) ==>
                  Redispatches(s.outbox) + Given(s) >=
                  Redispatches(r.outbox) + Given(r) + if Eligible(cfg, steps, k, rid) then 1 else 0)
  {
    hide Run, Next, SystemInv, Redispatches, Replays, Stuck, Reconcile;
    StepAt(cfg, steps, k);
    NothingFinalIsUndone(cfg, steps, k, k + 1, rid);
    var s0, s1 := StateAt(cfg, steps, k), StateAt(cfg, steps, k + 1);
    RunHolds(cfg, steps[..k]);
    RunHolds(cfg, steps[..k + 1]);
    OutboxReasons(cfg, s1, rid);
    CountsGrow(s0.table[rid].outbox, s1.table[rid].outbox);
    if Eligible(cfg, steps, k, rid) {
      PassMoves(cfg, s0, rid, steps[k].tx.now);
      assert steps[k] == OnRecord(rid, ToReconcile(true, steps[k].tx.now));
    }
  }

  lemma OutboxReasons(cfg: Config, s: System, rid: RemId)
    requires SystemInv(cfg, s) && rid in s.table
    ensures forall i :: 0 < i < |s.table[rid].outbox| ==> s.table[rid].outbox[i].reason != Execute
  {
    assert Boxed(s.table[rid]);
  }

  lemma PassMoves(cfg: Config, s: System, rid: RemId, now: Time)
    requires SystemInv(cfg, s) && rid in s.table && Stuck(cfg, s.table[rid], now)
    ensures var t := Next(cfg, s, OnRecord(rid, ToReconcile(true, now)));
            && rid in t.table && s.table[rid].rem.status != TimedOut
            && Redispatches(t.table[rid].outbox) + Given(t.table[rid]) == Redispatches(s.table[rid].outbox) + 1
  {
    hide Redispatches, Reconcile, Stuck, Inv, Given;
    RecordPassMoves(cfg, s.table[rid], now);
  }

  lemma RecordPassMoves(cfg: Config, r: Record, now: Time)
    requires Inv(cfg, r) && Stuck(cfg, r, now)
    ensures var after := Reconcile(cfg, r, true, now);
            r.rem.status != TimedOut && Redispatches(after.outbox) + Given(after) == Redispatches(r.outbox) + 1
  {
    hide Redispatches, Reconcile, Coupled, Gated, Boxed, Audited;
    PassSpends(cfg, r, true, now);
  }

  /** Over any stretch of a run without a replay, every eligible pass is paid for out of the budget or is the one
      that gave the work up. */
  lemma {:induction false} PassesAreCounted(cfg: Config, steps: seq<Step>, m: nat, n: nat, rid: RemId)
    requires m <= n <= |steps| && rid in StateAt(cfg, steps, m).table
    ensures rid in StateAt(cfg, steps, n).table
    ensures var r, s := StateAt(cfg, steps, m).table[rid], StateAt(cfg, steps, n).table[rid];
            && Replays(r.outbox) <= Replays(s.outbox)
            && (Replays(r.outbox) == Replays(s.outbox) ==>
                  Redispatches(r.outbox) + Given(r) + Passes(cfg, steps, m, n, rid) <= Redispatches(s.outbox) + Given(s))
  {
    hide Run, Eligible, Redispatches, Replays, Given;
    if m < n {
      PassesAreCounted(cfg, steps, m, n - 1, rid);
      StepSpends(cfg, steps, n - 1, rid);
    }
  }

  /** Between two replays there are at most MaxRedispatches + 1 eligible passes, and as soon as there have been that
      many the remediation is timed out, whichever workers, dispatchers and operators acted in between. */
  lemma StuckWorkIsGivenUp(cfg: Config, steps: seq<Step>, m: nat, n: nat, rid: RemId)
    requires m <= n <= |steps| && rid in StateAt(cfg, steps, m).table
    requires rid in StateAt(cfg, steps, n).table
    requires Replays(StateAt(cfg, steps, n).table[rid].outbox) == Replays(StateAt(cfg, steps, m).table[rid].outbox)
    ensures Passes(cfg, steps, m, n, rid) <= cfg.maxRedispatches + 1
    ensures Passes(cfg, steps, m, n, rid) == cfg.maxRedispatches + 1 ==>
              StateAt(cfg, steps, n).table[rid].rem.status == TimedOut
  {
    hide Run, Redispatches, Replays, Passes;
    PassesAreCounted(cfg, steps, m, n, rid);
    RedispatchBudget(cfg, steps[..n], rid);
  }
}
