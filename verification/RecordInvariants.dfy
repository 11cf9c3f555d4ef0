/** What every transaction keeps about a record, and how a record may move from one transaction to the next. */
module RecordInvariants {
  import opened Text
  import opened Catalog
  import opened RemediationStates
  import opened DispatchIds
  import opened Records
  import Policy

  // ----- The invariant -----

  predicate MayRun(s: Status) { s in {Approved, Queued, Running, Succeeded, Failed, TimedOut, Cancelled} }

  /** The approval request and the remediation change together. */
  predicate Coupled(r: Record) {
    if !r.rem.allowed then r.rem.status == PolicyBlocked && r.request.None?
    else if !r.rem.requiresApproval then MayRun(r.rem.status) && r.request.None?
    else if r.request.None? then r.rem.status == AwaitingApproval
    else
      match r.request.value.status
      case ReqPending => r.rem.status == AwaitingApproval
      case ReqApproved => MayRun(r.rem.status)
      case ReqDenied => r.rem.status == Rejected
      case ReqExpired => r.rem.status == TimedOut
      case ReqCancelled => r.rem.status == Cancelled
  }

  /** An approval in time, with a reason, by an identified person who did not propose the action. */
  ghost predicate GoodApproval(cfg: Config, proposer: string, q: Request) {
    && q.status == ReqApproved
    && q.decidedAt.Some? && q.decidedAt.value < q.expiresAt
    && Visible(q.reason) && Visible(q.decidedBy) && q.decidedBy != "system"
    && (cfg.allowSelf || Different(cfg.orbit, proposer, q.decidedBy))
  }

  ghost predicate Gated(cfg: Config, r: Record) {
    && (r.rem.allowed && !r.rem.requiresApproval ==> r.rem.action == CollectDiagnostics)
    && (r.rem.allowed ==> IsRegistered(r.rem.action) && Validate(r.rem.action, r.rem.target, r.rem.parameters))
    && (r.request.Some? ==> r.request.value.requestedBy == r.rem.proposedBy)
    && (r.request.Some? && r.request.value.status == ReqApproved ==> GoodApproval(cfg, r.rem.proposedBy, r.request.value))
  }

  /** Policy and, where it asked for one, an approval let the work run. */
  predicate Cleared(r: Record) {
    r.rem.allowed && (r.rem.requiresApproval ==> r.request.Some? && r.request.value.status == ReqApproved)
  }

  /** The id a row must have, from its place in the outbox alone. */
  function RowId(r: Record, i: nat): Id
    requires i < |r.outbox| && r.rem.queuedAt.Some?
  {
    Id(r.rem.key, r.rem.queuedAt.value, if i == 0 then None else Some((r.outbox[i].reason, i + 1)))
  }

  /** Queued or running work always has an outbox row, and a skipped row belongs to finished work. */
  predicate Boxed(r: Record) {
    && (Dispatchable(r.rem.status) ==> |r.outbox| > 0)
    && (r.rem.status in {PolicyBlocked, AwaitingApproval, Approved, Rejected} ==> |r.outbox| == 0)
    && (r.rem.queuedAt.Some? ==> Cleared(r)) && (r.rem.status == Running ==> r.rem.startedAt.Some?)
    && (|r.outbox| > 0 ==> r.rem.queuedAt.Some? && r.outbox[0].reason == Execute)
    && (forall i :: 0 <= i < |r.outbox| ==> r.rem.queuedAt.Some? && r.outbox[i].id == RowId(r, i))
    && (forall i :: 0 < i < |r.outbox| ==> r.outbox[i].reason != Execute)
    && (forall i :: 0 <= i < |r.outbox| && r.outbox[i].state == Skipped ==> IsTerminal(r.rem.status))
  }

  /** Rows the reconciler wrote over the whole life of the record. */
  function TotalRedispatches(o: seq<Dispatch>): nat { RedispatchesAfter(o, None) }

  predicate WithinBudget(cfg: Config, o: seq<Dispatch>) {
    && Redispatches(o) <= cfg.maxRedispatches
    && (|o| > 0 ==> TotalRedispatches(o) <= cfg.maxRedispatches * (|o| - TotalRedispatches(o) - 1) + Redispatches(o))
  }

  predicate Budgeted(cfg: Config, r: Record) { WithinBudget(cfg, r.outbox) }

  /** The status a reader of the ledger alone arrives at, or None if some entry is not a legal move. A claim writes
      no entry, so running work still reads as queued. */
  function Replayed(trail: seq<Entry>): Option<Status> {
    if |trail| == 0 then None
    else
      var e := trail[|trail| - 1];
      if |trail| == 1 then
        if e.deed == WasProposed && CanTransition(Proposed, e.after) then Some(e.after) else None
      else
        var before := Replayed(trail[..|trail| - 1]);
        if !ChangesState(e.deed) then before
        else if before.Some? && e.deed != WasProposed && CanTransition(before.value, e.after) then Some(e.after)
        else None
  }

  function Settled(s: Status): Status { if s == Running then Queued else s }

  predicate Audited(r: Record) { Replayed(r.trail) == Some(Settled(r.rem.status)) }

  ghost predicate Inv(cfg: Config, r: Record) {
    Coupled(r) && Gated(cfg, r) && Boxed(r) && Budgeted(cfg, r) && Audited(r)
  }

  // ----- Moves between transactions -----

  predicate SameRequestedWork(a: Remediation, b: Remediation) {
    && a.action == b.action && a.target == b.target && a.parameters == b.parameters
    && a.proposedBy == b.proposedBy && a.key == b.key
    && a.allowed == b.allowed && a.requiresApproval == b.requiresApproval
  }

  predicate SameRow(d: Dispatch, e: Dispatch) { d.id == e.id && d.reason == e.reason && d.createdAt == e.createdAt }

  predicate Grows(o: seq<Dispatch>, p: seq<Dispatch>) {
    |o| <= |p| && forall i :: 0 <= i < |o| ==> SameRow(o[i], p[i])
  }

  /** One transaction: a legal status move, terminal statuses kept, decided requests kept, rows and entries only added. */
  predicate Evolves(r: Record, s: Record) {
    && CanTransition(r.rem.status, s.rem.status)
    && (IsTerminal(r.rem.status) ==> s.rem.status == r.rem.status)
    && SameRequestedWork(r.rem, s.rem)
    && (r.rem.status !in {AwaitingApproval, Approved} ==> s.rem.dryRun == r.rem.dryRun && s.rem.queuedAt == r.rem.queuedAt)
    && (r.request.Some? ==> s.request.Some?)
    && (r.request.Some? && r.request.value.status != ReqPending ==> s.request == r.request)
    && Grows(r.outbox, s.outbox)
    && r.trail <= s.trail
  }

  lemma SelfEvolves(r: Record)
    ensures Evolves(r, r)
  {
  }

  // ----- Counting redispatches -----

  lemma {:induction false} SameRowsSameCounts(o: seq<Dispatch>, p: seq<Dispatch>, bound: Option<Time>)
    requires |o| == |p| && Grows(o, p)
    ensures LastReset(o) == LastReset(p) && RedispatchesAfter(o, bound) == RedispatchesAfter(p, bound)
  {
    if |o| > 0 {
      var n := |o| - 1;
      assert SameRow(o[n], p[n]);
      SameRowsSameCounts(o[..n], p[..n], bound);
    }
  }

  lemma {:induction false} LaterBoundCountsLess(o: seq<Dispatch>, bound: Option<Time>, later: Option<Time>)
    requires bound.Some? ==> later.Some? && bound.value <= later.value
    ensures RedispatchesAfter(o, later) <= RedispatchesAfter(o, bound)
  {
    if |o| > 0 { LaterBoundCountsLess(o[..|o| - 1], bound, later); }
  }

  lemma {:induction false} ResetIsSomeRow(o: seq<Dispatch>)
    ensures LastReset(o).Some? ==> exists i :: 0 <= i < |o| && o[i].createdAt == LastReset(o).value
  {
    if |o| > 0 {
      var n := |o| - 1;
      ResetIsSomeRow(o[..n]);
      if LastReset(o).Some? && LastReset(o) == LastReset(o[..n]) {
        var i :| 0 <= i < n && o[..n][i].createdAt == LastReset(o).value;
        assert o[i].createdAt == LastReset(o).value;
      } else if LastReset(o).Some? {
        assert o[n].createdAt == LastReset(o).value;
      }
    }
  }

  function Counted(d: Dispatch, bound: Option<Time>): nat {
    if d.reason == Redispatch && After(d.createdAt, bound) then 1 else 0
  }

  lemma AppendRow(o: seq<Dispatch>, d: Dispatch)
    ensures LastReset(o + [d]) ==
            if d.reason == Redispatch || (LastReset(o).Some? && LastReset(o).value >= d.createdAt)
            then LastReset(o) else Some(d.createdAt)
    ensures forall bound :: RedispatchesAfter(o + [d], bound) == RedispatchesAfter(o, bound) + Counted(d, bound)
  {
    assert (o + [d])[..|o|] == o;
  }

  // ----- Preservation, one transaction at a time -----

  lemma SameBudget(cfg: Config, r: Record, s: Record)
    requires Budgeted(cfg, r) && |s.outbox| == |r.outbox| && Grows(r.outbox, s.outbox)
    ensures Budgeted(cfg, s)
  {
    SameRowsSameCounts(r.outbox, s.outbox, None);
    SameRowsSameCounts(r.outbox, s.outbox, LastReset(r.outbox));
  }

  lemma MovedIsAudited(r: Record, to: Status, deed: Deed)
    requires Audited(r) && CanTransition(Settled(r.rem.status), to) && ChangesState(deed) && deed != WasProposed
    requires to != Running
    ensures Audited(Moved(r, to, deed))
  {
    assert Moved(r, to, deed).trail[..|r.trail|] == r.trail;
  }

  lemma ProposeKeeps(cfg: Config, input: Policy.Input, proposer: string, key: string)
    ensures Inv(cfg, Propose(cfg, input, proposer, key))
  {
    Policy.PolicyGate(cfg.environments, input);
  }

  lemma RequestApprovalKeeps(cfg: Config, r: Record, now: Time)
    requires Inv(cfg, r) && r.rem.allowed && r.rem.requiresApproval
    ensures Inv(cfg, RequestApproval(cfg, r, now)) && Evolves(r, RequestApproval(cfg, r, now))
  {
    hide WithinBudget, Replayed, GoodApproval, Validate;
    SameBudget(cfg, r, RequestApproval(cfg, r, now));
  }

  lemma ExpireKeeps(cfg: Config, r: Record)
    requires Inv(cfg, r) && r.request.Some? && r.request.value.status == ReqPending
    ensures Inv(cfg, ExpireRequest(r)) && Evolves(r, ExpireRequest(r))
  {
    hide WithinBudget, Replayed, GoodApproval, Validate;
    MovedIsAudited(r, TimedOut, ApprovalTimedOut);
    SameBudget(cfg, r, ExpireRequest(r));
  }

  lemma DecideKeeps(cfg: Config, r: Record, actor: string, approve: bool, reason: string, now: Time)
    requires Inv(cfg, r)
    ensures Inv(cfg, Decide(cfg, r, actor, approve, reason, now))
    ensures Evolves(r, Decide(cfg, r, actor, approve, reason, now))
  {
    hide Inv, Evolves, ExpireRequest, ValidDecision, Separated;
    SelfEvolves(r);
    if ValidDecision(actor, reason) && r.request.Some? && Separated(cfg, r.request.value.requestedBy, actor)
       && r.request.value.status == ReqPending {
      if now >= r.request.value.expiresAt { ExpireKeeps(cfg, r); }
      else if r.rem.status == AwaitingApproval { DecidedKeeps(cfg, r, actor, approve, reason, now); }
    }
  }

  lemma DecidedKeeps(cfg: Config, r: Record, actor: string, approve: bool, reason: string, now: Time)
    requires Inv(cfg, r) && r.request.Some? && r.request.value.status == ReqPending && r.rem.status == AwaitingApproval
    requires ValidDecision(actor, reason) && Separated(cfg, r.request.value.requestedBy, actor) && now < r.request.value.expiresAt
    ensures Inv(cfg, Decide(cfg, r, actor, approve, reason, now))
    ensures Evolves(r, Decide(cfg, r, actor, approve, reason, now))
  {
    hide WithinBudget, Replayed, GoodApproval, Validate, ValidDecision, Separated;
    var s := Decide(cfg, r, actor, approve, reason, now);
    MovedIsAudited(r, s.rem.status, if approve then WasApproved else WasRejected);
    SameBudget(cfg, r, s);
    if approve { DecisionIsGood(cfg, r.request.value, actor, reason, now); }
  }

  lemma DecisionIsGood(cfg: Config, q: Request, actor: string, reason: string, now: Time)
    requires ValidDecision(actor, reason) && Separated(cfg, q.requestedBy, actor) && now < q.expiresAt
    ensures GoodApproval(cfg, q.requestedBy,
                         q.(status := ReqApproved, decidedAt := Some(now), decidedBy := actor, reason := TrimSpace(reason)))
  {
    DecisionNeeds(cfg, q.requestedBy, actor, reason);
  }

  /** The service's checks on a decision, on the texts themselves: somebody with a name who is not the system gives a
      reason, and unless self-approval is enabled is not the requester in other clothes. */
  lemma DecisionNeeds(cfg: Config, requestedBy: string, actor: string, reason: string)
    ensures ValidDecision(actor, reason) <==> Visible(actor) && actor != "system" && Visible(reason)
    ensures Separated(cfg, requestedBy, actor) <==> cfg.allowSelf || Different(cfg.orbit, requestedBy, actor)
    ensures Visible(reason) ==> Visible(TrimSpace(reason))
  {
    hide Core, Different, Visible;
    TrimmedIsCore(actor, "");
    TrimmedIsCore(reason, "");
    TrimmedIsCore(TrimSpace(reason), "");
    assert TrimSpace(TrimSpace(reason)) == TrimSpace(reason);
    DifferentMeans(cfg.orbit, requestedBy, actor);
  }

  predicate Decidable(r: Record, now: Time) {
    && r.request.Some? && r.request.value.status == ReqPending && r.rem.status == AwaitingApproval
    && now < r.request.value.expiresAt
  }

  ghost predicate Entitled(cfg: Config, requestedBy: string, actor: string, reason: string) {
    && Visible(actor) && actor != "system" && Visible(reason)
    && (cfg.allowSelf || Different(cfg.orbit, requestedBy, actor))
  }

  /** A decision is taken exactly when it is asked for in time, about work that awaits it, by somebody entitled to it;
      it is recorded with who took it, when and why. Asked for too late it expires the request, and otherwise nothing
      changes. */
  lemma DecidedExactlyWhenEntitled(cfg: Config, r: Record, actor: string, approve: bool, reason: string, now: Time)
    ensures var after := Decide(cfg, r, actor, approve, reason, now);
            if r.request.None? || r.request.value.status != ReqPending
               || !Entitled(cfg, r.request.value.requestedBy, actor, reason) then after == r
            else if now >= r.request.value.expiresAt then
              && after.request.Some? && after.request.value.status == ReqExpired
              && (r.rem.status == AwaitingApproval ==> after.rem == r.rem.(status := TimedOut))
              && (r.rem.status != AwaitingApproval ==> after.rem == r.rem)
              && after.trail == r.trail + [Entry(ApprovalTimedOut, TimedOut)]
            else if !Decidable(r, now) then after == r
            else
              && after.rem == r.rem.(status := if approve then Approved else Rejected)
              && after.request.Some? && after.request.value.status == (if approve then ReqApproved else ReqDenied)
              && after.request.value.decidedBy == actor && after.request.value.decidedAt == Some(now)
              && Core(reason, after.request.value.reason)
              && after.trail == r.trail + [if approve then Entry(WasApproved, Approved) else Entry(WasRejected, Rejected)]
  {
    hide Core, Different, Visible, TrimSpace, ValidDecision, Separated;
    if r.request.Some? { DecisionNeeds(cfg, r.request.value.requestedBy, actor, reason); }
    TrimmedIsCore(reason, TrimSpace(reason));
  }

  lemma CancelApprovalKeeps(cfg: Config, r: Record, actor: string, reason: string, now: Time)
    requires Inv(cfg, r)
    ensures Inv(cfg, CancelApproval(r, actor, reason, now)) && Evolves(r, CancelApproval(r, actor, reason, now))
  {
    hide WithinBudget, Replayed, GoodApproval, Validate, Blank;
    var s := CancelApproval(r, actor, reason, now);
    if s != r {
      MovedIsAudited(r, Cancelled, WasCancelled);
      SameBudget(cfg, r, s);
    }
  }

  lemma CancelKeeps(cfg: Config, r: Record, observed: Status)
    requires Inv(cfg, r)
    ensures Inv(cfg, Cancel(r, observed)) && Evolves(r, Cancel(r, observed))
  {
    hide WithinBudget, Replayed, Gated;
    var s := Cancel(r, observed);
    SameGate(cfg, r, s);
    if s != r {
      MovedIsAudited(r, Cancelled, WasCancelled);
      SameBudget(cfg, r, s);
    }
  }

  lemma ReserveKeeps(cfg: Config, r: Record, dryRun: bool, now: Time)
    requires Inv(cfg, r)
    ensures Inv(cfg, Reserve(r, dryRun, now)) && Evolves(r, Reserve(r, dryRun, now))
    ensures r.rem.status == Approved ==> Reserve(r, dryRun, now).rem.status == Queued
  {
    hide WithinBudget, Replayed, GoodApproval, Validate;
    var s := Reserve(r, dryRun, now);
    if s != r {
      MovedIsAudited(r, Queued, ExecuteRequested);
      assert s.trail == Moved(r, Queued, ExecuteRequested).trail;
      FirstRowBudget(cfg, s);
    }
  }

  lemma FirstRowBudget(cfg: Config, r: Record)
    requires |r.outbox| == 1 && r.outbox[0].reason != Redispatch
    ensures Budgeted(cfg, r)
  {
    var o := r.outbox;
    assert o == [] + [o[0]];
    AppendRow([], o[0]);
    assert TotalRedispatches(o) == 0 && Redispatches(o) == 0;
  }

  /** A new row never meets an id already in the outbox, so numbering by row count needs no retry. */
  lemma NextIdIsFresh(r: Record, reason: Reason)
    requires Boxed(r) && r.rem.queuedAt.Some?
    ensures !HasId(r.outbox, NextId(r, reason))
  {
  }

  lemma SameGate(cfg: Config, r: Record, s: Record)
    requires SameRequestedWork(r.rem, s.rem) && s.request == r.request && Gated(cfg, r)
    ensures Gated(cfg, s)
  {
    hide GoodApproval, Validate;
  }

  lemma SameCoupling(r: Record, s: Record)
    requires s.rem == r.rem && s.request == r.request && Coupled(r)
    ensures Coupled(s)
  {
  }

  lemma SendAgainKeeps(cfg: Config, r: Record, reason: Reason, now: Time)
    requires Inv(cfg, r) && reason != Execute
    requires reason == Redispatch ==>
               Redispatches(r.outbox) < cfg.maxRedispatches &&
               forall i :: 0 <= i < |r.outbox| ==> r.outbox[i].createdAt < now
    ensures Inv(cfg, SendAgain(r, reason, now)) && Evolves(r, SendAgain(r, reason, now))
    ensures Dispatchable(r.rem.status) ==> |SendAgain(r, reason, now).outbox| == |r.outbox| + 1
    ensures Dispatchable(r.rem.status) && reason == Redispatch ==>
              Redispatches(SendAgain(r, reason, now).outbox) == Redispatches(r.outbox) + 1
  {
    hide WithinBudget, Redispatches, Gated, Coupled, HasId;
    SameGate(cfg, r, SendAgain(r, reason, now));
    SameCoupling(r, SendAgain(r, reason, now));
    if Dispatchable(r.rem.status) {
      NextIdIsFresh(r, reason);
      var s := SendAgain(r, reason, now);
      var d := NewDispatch(NextId(r, reason), reason, now);
      assert s.trail[..|r.trail|] == r.trail;
      AppendKeepsBudget(cfg, r.outbox, d);
    }
  }

  lemma AppendKeepsBudget(cfg: Config, o: seq<Dispatch>, d: Dispatch)
    requires WithinBudget(cfg, o) && |o| > 0 && d.reason != Execute
    requires d.reason == Redispatch ==>
               Redispatches(o) < cfg.maxRedispatches && forall i :: 0 <= i < |o| ==> o[i].createdAt < d.createdAt
    ensures WithinBudget(cfg, o + [d])
    ensures d.reason == Redispatch ==> Redispatches(o + [d]) == Redispatches(o) + 1
  {
    AppendRow(o, d);
    ResetIsSomeRow(o);
    if d.reason != Redispatch {
      LaterBoundCountsLess(o, LastReset(o), LastReset(o + [d]));
      assert Redispatches(o + [d]) <= Redispatches(o);
      var others := |o| - TotalRedispatches(o);
      assert cfg.maxRedispatches * others == cfg.maxRedispatches * (others - 1) + cfg.maxRedispatches;
    }
  }

  lemma MarkKeeps(cfg: Config, r: Record, id: Id, o: Outcome)
    requires Inv(cfg, r) && (o.Skip? ==> IsTerminal(r.rem.status))
    ensures Inv(cfg, Mark(r, id, o)) && Evolves(r, Mark(r, id, o))
  {
    hide WithinBudget, Replayed, GoodApproval, Validate;
    SameBudget(cfg, r, Mark(r, id, o));
  }

  lemma ClaimKeeps(cfg: Config, r: Record, now: Time)
    requires Inv(cfg, r)
    ensures Inv(cfg, Claim(r, now)) && Evolves(r, Claim(r, now))
  {
    hide WithinBudget, Replayed, GoodApproval, Validate;
    SameBudget(cfg, r, Claim(r, now));
  }

  lemma FinishKeeps(cfg: Config, r: Record, e: Ending)
    requires Inv(cfg, r)
    ensures Inv(cfg, Finish(r, e)) && Evolves(r, Finish(r, e))
  {
    hide WithinBudget, Replayed, Gated;
    SameGate(cfg, r, Finish(r, e));
    if Dispatchable(r.rem.status) {
      MovedIsAudited(r, EndStatus(e), EndDeed(e));
      SameBudget(cfg, r, Finish(r, e));
    }
  }

  lemma NoteKeeps(cfg: Config, r: Record, deed: Deed, seen: Status)
    requires Inv(cfg, r)
    ensures Inv(cfg, Note(r, deed, seen)) && Evolves(r, Note(r, deed, seen))
  {
    hide WithinBudget, GoodApproval, Validate;
    if !ChangesState(deed) {
      assert Note(r, deed, seen).trail[..|r.trail|] == r.trail;
      SameBudget(cfg, r, Note(r, deed, seen));
    }
  }

  lemma ReconcileKeeps(cfg: Config, r: Record, hasWorker: bool, now: Time)
    requires Inv(cfg, r)
    ensures Inv(cfg, Reconcile(cfg, r, hasWorker, now)) && Evolves(r, Reconcile(cfg, r, hasWorker, now))
  {
    hide Inv, Evolves, Finish, SendAgain, Redispatches;
    SelfEvolves(r);
    if Stuck(cfg, r, now) && hasWorker {
      if Redispatches(r.outbox) >= cfg.maxRedispatches {
        FinishKeeps(cfg, r, Exhausted);
      } else {
        assert forall i :: 0 <= i < |r.outbox| ==> Quiet(cfg, r.outbox[i], now);
        SendAgainKeeps(cfg, r, Redispatch, now);
      }
    }
  }

  lemma TransactKeeps(cfg: Config, r: Record, tx: Transaction)
    requires Inv(cfg, r)
    ensures Inv(cfg, Transact(cfg, r, tx)) && Evolves(r, Transact(cfg, r, tx))
  {
    hide Inv, Evolves, Decide, CancelApproval, ExpireRequest, Cancel, Reserve, SendAgain, Reconcile, Note;
    SelfEvolves(r);
    match tx
    case ToDecide(actor, approve, text, now) => DecideKeeps(cfg, r, actor, approve, text, now);
    case ToCancelApproval(actor, text, now) => CancelApprovalKeeps(cfg, r, actor, text, now);
    case ToExpire(now) => if ExpireIfDue(r, now) != r { ExpireKeeps(cfg, r); }
    case ToCancel(observed) => CancelKeeps(cfg, r, observed);
    case ToReserve(dryRun, now) => ReserveKeeps(cfg, r, dryRun, now);
    case ToReplay(now) => SendAgainKeeps(cfg, r, Replay, now);
    case ToReconcile(hasWorker, now) => ReconcileKeeps(cfg, r, hasWorker, now);
    case ToNote(deed, seen) => NoteKeeps(cfg, r, deed, seen);
  }
}
