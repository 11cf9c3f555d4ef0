/** What a status means about the run that led to it: somebody did what it says. */
module StatusCauses {
  import opened Text
  import opened RemediationStates
  import opened DispatchIds
  import opened Records
  import opened Protocol
  import opened ProtocolInvariants
  import opened ProtocolTheorems

  predicate Decides(s: System, step: Step, rid: RemId, approve: bool) {
    && step.OnRecord? && step.rid == rid && step.tx.ToDecide? && step.tx.approve == approve
    && rid in s.table && s.table[rid].request.Some? && step.tx.now < s.table[rid].request.value.expiresAt
  }

  predicate Expires(s: System, step: Step, rid: RemId) {
    && step.OnRecord? && step.rid == rid && (step.tx.ToExpire? || step.tx.ToDecide?)
    && rid in s.table && s.table[rid].request.Some? && s.table[rid].request.value.expiresAt <= step.tx.now
  }

  /** A worker that was running the remediation's handler ends the job this way. */
  predicate Ends(s: System, step: Step, rid: RemId, ending: Ending) {
    step.FinishJob? && step.ending == ending && PC(s, step.w).Invoked? && PC(s, step.w).rid == rid
  }

  predicate Refuses(cfg: Config, s: System, step: Step, rid: RemId) {
    step.Reject? && PC(s, step.w).Checked? && PC(s, step.w).rid == rid && !Runnable(cfg, PC(s, step.w).snap)
  }

  predicate GivesUp(cfg: Config, s: System, step: Step, rid: RemId) {
    && step.OnRecord? && step.rid == rid && step.tx.ToReconcile? && step.tx.hasWorker
    && rid in s.table && Redispatches(s.table[rid].outbox) >= cfg.maxRedispatches
  }

  /** The step that gives a remediation this status. */
  predicate Causes(cfg: Config, s: System, step: Step, rid: RemId, status: Status) {
    match status
    case Approved => Decides(s, step, rid, true)
    case Rejected => Decides(s, step, rid, false)
    case Cancelled => step.OnRecord? && step.rid == rid && (step.tx.ToCancel? || step.tx.ToCancelApproval?)
    case Queued => step.OnRecord? && step.rid == rid && step.tx.ToReserve?
    case Running => step.ClaimJob? && PC(s, step.w).Checked? && PC(s, step.w).rid == rid && Runnable(cfg, PC(s, step.w).snap)
    case Succeeded => Ends(s, step, rid, Done)
    case Failed => Ends(s, step, rid, Broke) || Refuses(cfg, s, step, rid)
    case TimedOut => Ends(s, step, rid, Late) || Expires(s, step, rid) || GivesUp(cfg, s, step, rid)
    case _ => false
  }

  lemma TransactionCauses(cfg: Config, s: System, rid: RemId, tx: Transaction)
    requires rid in s.table
    ensures var status := Transact(cfg, s.table[rid], tx).rem.status;
            status != s.table[rid].rem.status ==> Causes(cfg, s, OnRecord(rid, tx), rid, status)
  {
    hide Redispatches, HasId, ValidDecision, Separated, Stuck, Note;
    var r := s.table[rid];
    match tx
    case ToDecide(actor, approve, text, now) => DecideCauses(cfg, s, rid, actor, approve, text, now);
    case ToReplay(now) => assert SendAgain(r, Replay, now).rem == r.rem by { SentAgainSameRow(r, Replay, now); }
    case ToReconcile(hasWorker, now) => SentAgainSameRow(r, Redispatch, now);
    case ToNote(deed, seen) => assert Note(r, deed, seen).rem == r.rem by { NotedSameRow(r, deed, seen); }
    case _ =>
  }

  lemma DecideCauses(
    cfg: Config, s: System, rid: RemId, actor: string, approve: bool, text: string, now: Time)
    requires rid in s.table
    ensures var status := Decide(cfg, s.table[rid], actor, approve, text, now).rem.status;
            status != s.table[rid].rem.status ==>
              Causes(cfg, s, OnRecord(rid, ToDecide(actor, approve, text, now)), rid, status)
  {
    hide Redispatches, ValidDecision, Separated, TrimSpace;
  }

  lemma NotedSameRow(r: Record, deed: Deed, seen: Status)
    ensures Note(r, deed, seen).rem == r.rem
  {
  }

  lemma SentAgainSameRow(r: Record, reason: Reason, now: Time)
    ensures SendAgain(r, reason, now).rem == r.rem
  {
  }

  lemma WorkerCauses(cfg: Config, s: System, step: Step, rid: RemId)
    requires OfWorker(step) && rid in s.table
    ensures rid in WorkerNext(cfg, s, step).table
    ensures var status := WorkerNext(cfg, s, step).table[rid].rem.status;
            status != s.table[rid].rem.status ==> Causes(cfg, s, step, rid, status)
  {
    hide Runnable, HasEffect, CallOf;
  }

  lemma StepCauses(cfg: Config, s: System, step: Step, rid: RemId)
    requires rid in s.table && SystemInv(cfg, s)
    ensures rid in Next(cfg, s, step).table
    ensures var status := Next(cfg, s, step).table[rid].rem.status;
            status != s.table[rid].rem.status ==> Causes(cfg, s, step, rid, status)
  {
    hide Transact, WorkerNext, SystemInv, Causes, RequestApproval, Propose;
    if OfWorker(step) {
      WorkerCauses(cfg, s, step, rid);
    } else if step.Commit? {
      if step.d in s.dispatchers { MarksLeaveStatus(s.table, s.dispatchers[step.d].done, rid); }
    } else if step.OnRecord? {
      if step.rid == rid { TransactionCauses(cfg, s, rid, step.tx); }
    } else if step.OpenRequest? && step.rid == rid {
      RequestLeavesStatus(cfg, s.table[rid], step.now);
    }
  }

  lemma RequestLeavesStatus(cfg: Config, r: Record, now: Time)
    ensures RequestApproval(cfg, r, now).rem == r.rem
  {
  }

  lemma {:induction false} MarksLeaveStatus(t: Table, done: seq<(Item, Outcome)>, rid: RemId)
    requires rid in t
    ensures rid in MarkRows(t, done) && MarkRows(t, done)[rid].rem == t[rid].rem
  {
    if |done| > 0 { MarksLeaveStatus(t, done[..|done| - 1], rid); }
  }

  /** Every change of status in a run is the doing of the actor it stands for: somebody's decision, cancellation or
      reservation, a worker's claim, the outcome of a handler that worker ran, or the approval controller's or the
      reconciler's giving up. */
  lemma StatusChangeHasCause(cfg: Config, steps: seq<Step>, n: nat, rid: RemId)
    requires n < |steps| && rid in StateAt(cfg, steps, n).table
    ensures rid in StateAt(cfg, steps, n + 1).table
    ensures var status := StateAt(cfg, steps, n + 1).table[rid].rem.status;
            status != StateAt(cfg, steps, n).table[rid].rem.status ==>
              Causes(cfg, StateAt(cfg, steps, n), steps[n], rid, status)
  {
    hide Next, SystemInv, Causes;
    StepAt(cfg, steps, n);
    RunHolds(cfg, steps[..n]);
    StepCauses(cfg, StateAt(cfg, steps, n), steps[n], rid);
  }

  ghost predicate CausedAt(cfg: Config, steps: seq<Step>, k: nat, rid: RemId, status: Status) {
    k < |steps| && rid in StateAt(cfg, steps, k).table && Causes(cfg, StateAt(cfg, steps, k), steps[k], rid, status)
  }

  /** Whatever a policy verdict alone can give. */
  predicate Verdict(r: Record) {
    r.rem.status in {PolicyBlocked, AwaitingApproval} || (r.rem.status == Approved && !r.rem.requiresApproval)
  }

  /** A remediation is Succeeded only if a worker invoked for it finished its job with a result, Failed only if one
      failed or refused it, Approved only if somebody approved it in time, and so on for every status a policy verdict
      does not give. */
  lemma {:induction false} StatusHasCause(cfg: Config, steps: seq<Step>, rid: RemId)
    requires rid in Run(cfg, steps).table
    ensures Verdict(Run(cfg, steps).table[rid]) ||
            exists k :: CausedAt(cfg, steps, k, rid, Run(cfg, steps).table[rid].rem.status)
  {
    hide Next, SystemInv, Causes, Propose;
    var n := |steps| - 1;
    var before, after := Run(cfg, steps[..n]), Run(cfg, steps);
    RunHolds(cfg, steps[..n]);
    assert steps[..n + 1] == steps && StateAt(cfg, steps, n) == before;
    if rid !in before.table {
      NewRows(cfg, before, steps[n], rid);
      ProposalIsVerdict(cfg, steps[n], rid);
    } else {
      NextKeeps(cfg, before, steps[n]);
      StatusChangeHasCause(cfg, steps, n, rid);
      if after.table[rid].rem.status != before.table[rid].rem.status {
        assert CausedAt(cfg, steps, n, rid, after.table[rid].rem.status);
      } else {
        StatusHasCause(cfg, steps[..n], rid);
        if k: nat :| CausedAt(cfg, steps[..n], k, rid, before.table[rid].rem.status) {
          assert steps[..n][..k] == steps[..k];
          assert CausedAt(cfg, steps, k, rid, after.table[rid].rem.status);
        }
      }
    }
  }

  lemma ProposalIsVerdict(cfg: Config, step: Step, rid: RemId)
    requires step.Create?
    ensures Verdict(Propose(cfg, step.input, step.proposer, step.key))
  {
  }

  /** Spelled out for success: some worker ran this remediation's handler and ended with a result. */
  lemma SucceededMeansHandlerReturned(cfg: Config, steps: seq<Step>, rid: RemId) returns (k: nat, w: nat)
    requires rid in Run(cfg, steps).table && Run(cfg, steps).table[rid].rem.status == Succeeded
    ensures k < |steps| && steps[k] == FinishJob(w, Done)
    ensures PC(StateAt(cfg, steps, k), w).Invoked? && PC(StateAt(cfg, steps, k), w).rid == rid
  {
    hide Run;
    StatusHasCause(cfg, steps, rid);
    k :| CausedAt(cfg, steps, k, rid, Succeeded);
    w := steps[k].w;
  }
}
