/** A remediation with everything that refers to it, and the transactions that change it.

    A record joins one remediation row with its approval request (a unique index allows one), its outbox rows in
    creation order and its audit entries in ledger order. Every function below is one database transaction: it
    returns the record unchanged where the transaction fails, finds its guard false, or is rolled back. */
module Records {
  import opened Text
  import opened Catalog
  import opened RemediationStates
  import opened DispatchIds
  import Policy

  type Time = nat
  type Positive = n: nat | n > 0 witness 1

  datatype Config = Config(
    environments: set<string>, handlers: set<Action>, allowSelf: bool, orbit: char -> int, approvalTimeout: Positive,
    redispatchAfter: Positive, runningStaleAfter: Positive, maxRedispatches: Positive, duplicateWindow: nat)

  /** `allowed` and `requiresApproval` are the stored policy decision. */
  datatype Remediation = Remediation(
    action: Action, target: string, parameters: Params, proposedBy: string, key: string,
    allowed: bool, requiresApproval: bool,
    status: Status, dryRun: bool, queuedAt: Option<Time>, startedAt: Option<Time>)

  datatype RequestStatus = ReqPending | ReqApproved | ReqDenied | ReqExpired | ReqCancelled
  datatype Request = Request(
    status: RequestStatus, requestedBy: string, expiresAt: Time,
    decidedAt: Option<Time>, decidedBy: string, reason: string)

  datatype OutboxState = Pending | Published | Skipped
  datatype Dispatch = Dispatch(
    id: Id, reason: Reason, state: OutboxState, createdAt: Time, publishedAt: Option<Time>,
    attempts: nat, nextAttemptAt: Time)

  /** Audit actions. Those on the first two lines accompany a status change, the others only note an event. */
  datatype Deed =
    | WasProposed | WasApproved | WasRejected | ApprovalTimedOut | WasCancelled | ExecuteRequested
    | Completed | JobFailed | ValidationFailed | JobTimedOut | DispatchExhausted
    | Redispatched | ExecutionSkipped | ExecutionReused | ProposalReused | RetryScheduled | CompletionConflict
  datatype Entry = Entry(deed: Deed, after: Status)

  predicate ChangesState(d: Deed) {
    d in {WasProposed, WasApproved, WasRejected, ApprovalTimedOut, WasCancelled, ExecuteRequested,
          Completed, JobFailed, ValidationFailed, JobTimedOut, DispatchExhausted}
  }

  datatype Record = Record(rem: Remediation, request: Option<Request>, outbox: seq<Dispatch>, trail: seq<Entry>)

  function Moved(r: Record, to: Status, deed: Deed): Record {
    r.(rem := r.rem.(status := to), trail := r.trail + [Entry(deed, to)])
  }

  /** An audit entry written on its own, for an event that changes no status. */
  function Note(r: Record, deed: Deed, seen: Status): Record {
    if ChangesState(deed) then r else r.(trail := r.trail + [Entry(deed, seen)])
  }

  // ----- Proposal and approval -----

  function ProposedStatus(d: Policy.Decision): Status {
    if !d.allow then PolicyBlocked else if d.requiresApproval then AwaitingApproval else Approved
  }

  function Propose(cfg: Config, input: Policy.Input, proposer: string, key: string): Record {
    var d := Policy.Evaluate(cfg.environments, input);
    var status := ProposedStatus(d);
    Record(
      Remediation(input.action, input.target, input.parameters, proposer, key, d.allow, d.requiresApproval,
                  status, true, None, None),
      None, [], [Entry(WasProposed, status)])
  }

  function RequestApproval(cfg: Config, r: Record, now: Time): Record {
    if r.request.Some? then r
    else r.(request := Some(Request(ReqPending, r.rem.proposedBy, now + cfg.approvalTimeout, None, "", "")))
  }

  /** The remediation row is timed out only if it still awaits approval; both audit entries are written regardless. */
  function ExpireRequest(r: Record): Record
    requires r.request.Some?
  {
    var status := if r.rem.status == AwaitingApproval then TimedOut else r.rem.status;
    Record(r.rem.(status := status), Some(r.request.value.(status := ReqExpired)), r.outbox,
           r.trail + [Entry(ApprovalTimedOut, TimedOut)])
  }

  function ExpireIfDue(r: Record, now: Time): Record {
    if r.request.Some? && r.request.value.status == ReqPending && r.request.value.expiresAt <= now
    then ExpireRequest(r) else r
  }

  predicate ValidDecision(actor: string, reason: string) {
    !Blank(actor) && actor != "system" && !Blank(reason)
  }

  predicate Separated(cfg: Config, requestedBy: string, actor: string) {
    cfg.allowSelf || !EqualFold(cfg.orbit, TrimSpace(requestedBy), TrimSpace(actor))
  }

  function Decide(cfg: Config, r: Record, actor: string, approve: bool, reason: string, now: Time): Record {
    if !ValidDecision(actor, reason) || r.request.None? then r
    else
      var q := r.request.value;
      if !Separated(cfg, q.requestedBy, actor) || q.status != ReqPending then r
      else if now >= q.expiresAt then ExpireRequest(r)
      else if r.rem.status != AwaitingApproval then r
      else
        var decided := q.(status := if approve then ReqApproved else ReqDenied,
                          decidedAt := Some(now), decidedBy := actor, reason := TrimSpace(reason));
        if approve then Moved(r, Approved, WasApproved).(request := Some(decided))
        else Moved(r, Rejected, WasRejected).(request := Some(decided))
  }

  function CancelApproval(r: Record, actor: string, reason: string, now: Time): Record {
    if Blank(actor) || r.request.None? || r.request.value.status != ReqPending || r.rem.status != AwaitingApproval then r
    else
      var q := r.request.value.(status := ReqCancelled, decidedAt := Some(now), decidedBy := actor, reason := reason);
      Moved(r, Cancelled, WasCancelled).(request := Some(q))
  }

  /** Compare-and-swap on the status the caller observed. */
  function Cancel(r: Record, observed: Status): Record {
    if observed == AwaitingApproval || !CanTransition(observed, Cancelled) || r.rem.status != observed then r
    else Moved(r, Cancelled, WasCancelled)
  }

  // ----- Reservation and outbox -----

  predicate HasId(outbox: seq<Dispatch>, id: Id) {
    exists i :: 0 <= i < |outbox| && outbox[i].id == id
  }

  function NewDispatch(id: Id, reason: Reason, now: Time): Dispatch {
    Dispatch(id, reason, Pending, now, None, 0, now)
  }

  /** The reservation, its outbox row and its audit entry commit together. */
  function Reserve(r: Record, dryRun: bool, now: Time): Record {
    var id := Id(r.rem.key, now, None);
    if r.rem.status != Approved || HasId(r.outbox, id) then r
    else
      var queued := Moved(r, Queued, ExecuteRequested);
      queued.(rem := queued.rem.(queuedAt := Some(now), dryRun := dryRun),
              outbox := r.outbox + [NewDispatch(id, Execute, now)])
  }

  /** The id the next row of a queued or running remediation gets. */
  function NextId(r: Record, reason: Reason): Id
    requires r.rem.queuedAt.Some?
  {
    Id(r.rem.key, r.rem.queuedAt.value, Some((reason, |r.outbox| + 1)))
  }

  /** A queued or running remediation always has its reservation time, so the second guard never decides. */
  function SendAgain(r: Record, reason: Reason, now: Time): Record {
    if !Dispatchable(r.rem.status) || r.rem.queuedAt.None? || HasId(r.outbox, NextId(r, reason)) then r
    else
      Note(r.(outbox := r.outbox + [NewDispatch(NextId(r, reason), reason, now)]), Redispatched, r.rem.status)
  }

  datatype Outcome = Sent(at: Time) | NotSent(at: Time) | Skip

  /** 1, 2, 4, 8, 16 and then 30 seconds. */
  function Backoff(attempts: nat): nat {
    if attempts <= 1 then 1 else if attempts == 2 then 2 else if attempts == 3 then 4
    else if attempts == 4 then 8 else if attempts == 5 then 16 else 30
  }

  function Marked(d: Dispatch, o: Outcome): Dispatch {
    match o
    case Sent(at) => d.(state := Published, publishedAt := Some(at), attempts := d.attempts + 1)
    case NotSent(at) => d.(attempts := d.attempts + 1, nextAttemptAt := at + Backoff(d.attempts + 1))
    case Skip => d.(state := Skipped)
  }

  /** Updates the outbox row with this id. */
  function Mark(r: Record, id: Id, o: Outcome): Record {
    r.(outbox := seq(|r.outbox|, i requires 0 <= i < |r.outbox| =>
         if r.outbox[i].id == id then Marked(r.outbox[i], o) else r.outbox[i]))
  }

  // ----- Claim and completion -----

  function Claim(r: Record, now: Time): Record {
    if !Dispatchable(r.rem.status) then r
    else r.(rem := r.rem.(status := Running,
                          startedAt := if r.rem.startedAt.Some? then r.rem.startedAt else Some(now)))
  }

  datatype Ending = Done | Broke | Invalid | Late | Exhausted

  function EndStatus(e: Ending): Status {
    match e case Done => Succeeded case Broke => Failed case Invalid => Failed case Late => TimedOut case Exhausted => TimedOut
  }

  function EndDeed(e: Ending): Deed {
    match e
    case Done => Completed case Broke => JobFailed case Invalid => ValidationFailed
    case Late => JobTimedOut case Exhausted => DispatchExhausted
  }

  function Finish(r: Record, e: Ending): Record {
    if Dispatchable(r.rem.status) then Moved(r, EndStatus(e), EndDeed(e)) else r
  }

  // ----- Reconciliation -----

  /** Creation time of the newest row that the reconciler did not write. */
  function LastReset(o: seq<Dispatch>): Option<Time> {
    if |o| == 0 then None
    else
      var rest, d := LastReset(o[..|o| - 1]), o[|o| - 1];
      if d.reason == Redispatch || (rest.Some? && rest.value >= d.createdAt) then rest else Some(d.createdAt)
  }

  predicate After(t: Time, bound: Option<Time>) { bound.None? || t > bound.value }

  function RedispatchesAfter(o: seq<Dispatch>, bound: Option<Time>): nat {
    if |o| == 0 then 0
    else
      var d := o[|o| - 1];
      RedispatchesAfter(o[..|o| - 1], bound) + if d.reason == Redispatch && After(d.createdAt, bound) then 1 else 0
  }

  /** The reconciler's own count: rows it wrote since the last execute or replay. */
  function Redispatches(o: seq<Dispatch>): nat { RedispatchesAfter(o, LastReset(o)) }

  predicate Quiet(cfg: Config, d: Dispatch, now: Time) {
    && d.state != Pending
    && d.createdAt + cfg.redispatchAfter <= now
    && (d.publishedAt.Some? ==> d.publishedAt.value + cfg.redispatchAfter <= now)
  }

  predicate Stuck(cfg: Config, r: Record, now: Time) {
    && (|| (r.rem.status == Queued && r.rem.queuedAt.Some? && r.rem.queuedAt.value + cfg.redispatchAfter < now)
        || (r.rem.status == Running && r.rem.startedAt.Some? && r.rem.startedAt.value + cfg.runningStaleAfter < now
            && |r.outbox| > 0))
    && forall i :: 0 <= i < |r.outbox| ==> Quiet(cfg, r.outbox[i], now)
  }

  function Reconcile(cfg: Config, r: Record, hasWorker: bool, now: Time): Record {
    if !Stuck(cfg, r, now) || !hasWorker then r
    else if Redispatches(r.outbox) >= cfg.maxRedispatches then Finish(r, Exhausted)
    else SendAgain(r, Redispatch, now)
  }

  // ----- The transactions that need nothing but their record -----

  datatype Transaction =
    | ToDecide(actor: string, approve: bool, text: string, now: Time)
    | ToCancelApproval(actor: string, text: string, now: Time)
    | ToExpire(now: Time)
    | ToCancel(observed: Status)
    | ToReserve(dryRun: bool, now: Time)
    | ToReplay(now: Time)
    | ToReconcile(hasWorker: bool, now: Time)
    | ToNote(deed: Deed, seen: Status)

  function Transact(cfg: Config, r: Record, tx: Transaction): Record {
    match tx
    case ToDecide(actor, approve, text, now) => Decide(cfg, r, actor, approve, text, now)
    case ToCancelApproval(actor, text, now) => CancelApproval(r, actor, text, now)
    case ToExpire(now) => ExpireIfDue(r, now)
    case ToCancel(observed) => Cancel(r, observed)
    case ToReserve(dryRun, now) => Reserve(r, dryRun, now)
    case ToReplay(now) => SendAgain(r, Replay, now)
    case ToReconcile(hasWorker, now) => Reconcile(cfg, r, hasWorker, now)
    case ToNote(deed, seen) => Note(r, deed, seen)
  }
}
