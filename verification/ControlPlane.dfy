/** The control plane as it updates its tables: approvals, proposals, execution, the dispatcher, the reconciler and a
    worker, each as the code runs it.

    A ghost history records the protocol steps taken. Every method keeps the tables equal to what that run of the
    protocol gives, so whatever holds of every run holds of the tables after every call. */
module ControlPlane {
  import opened Text
  import opened Catalog
  import opened RemediationStates
  import opened DispatchIds
  import opened Records
  import opened RecordInvariants
  import opened Protocol
  import opened ProtocolInvariants
  import Policy
  import ControlState

  lemma OneMoreStep(cfg: Config, steps: seq<Step>, step: Step)
    ensures Run(cfg, steps + [step]) == Next(cfg, Run(cfg, steps), step)
  {
    hide Next;
    assert (steps + [step])[..|steps|] == steps;
  }

  lemma TransactStep(cfg: Config, steps: seq<Step>, rid: RemId, tx: Transaction)
    requires rid in Run(cfg, steps).table
    ensures var s := Run(cfg, steps);
            Run(cfg, steps + [OnRecord(rid, tx)]) == s.(table := s.table[rid := Transact(cfg, s.table[rid], tx)])
  {
    hide Run, Transact;
    OneMoreStep(cfg, steps, OnRecord(rid, tx));
  }

  lemma OpenStep(cfg: Config, steps: seq<Step>, rid: RemId, now: Time)
    requires rid in Run(cfg, steps).table && rid in Run(cfg, steps).wantsApproval
    ensures var s := Run(cfg, steps);
            Run(cfg, steps + [OpenRequest(rid, now)]) == s.(table := s.table[rid := RequestApproval(cfg, s.table[rid], now)])
  {
    hide Run, RequestApproval;
    OneMoreStep(cfg, steps, OpenRequest(rid, now));
  }

  lemma CreateStep(cfg: Config, steps: seq<Step>, rid: RemId, input: Policy.Input, proposer: string, key: string)
    requires rid !in Run(cfg, steps).table && !KeyTaken(Run(cfg, steps).table, key)
    ensures Run(cfg, steps + [Create(rid, input, proposer, key)]) ==
            Insert(Run(cfg, steps), rid, Propose(cfg, input, proposer, key))
  {
    hide Run, Propose, Insert, KeyTaken;
    OneMoreStep(cfg, steps, Create(rid, input, proposer, key));
  }

  lemma SeeStep(cfg: Config, steps: seq<Step>, rid: RemId)
    requires rid in Run(cfg, steps).table && Run(cfg, steps).table[rid].rem.status == AwaitingApproval
    ensures var s := Run(cfg, steps);
            Run(cfg, steps + [SeeAwaiting(rid)]) == s.(wantsApproval := s.wantsApproval + {rid})
  {
    hide Run;
    OneMoreStep(cfg, steps, SeeAwaiting(rid));
  }

  lemma DispatcherStep(cfg: Config, steps: seq<Step>, step: Step)
    requires OfDispatcher(step)
    ensures Run(cfg, steps + [step]) == DispatcherNext(cfg, Run(cfg, steps), step)
  {
    hide Run, DispatcherNext;
    OneMoreStep(cfg, steps, step);
  }

  lemma WorkerStep(cfg: Config, steps: seq<Step>, step: Step)
    requires OfWorker(step)
    ensures Run(cfg, steps + [step]) == WorkerNext(cfg, Run(cfg, steps), step)
  {
    hide Run, WorkerNext;
    OneMoreStep(cfg, steps, step);
  }

  datatype DecideResult = Decided | Refused | NotFound | AlreadyDecided | Expired | NoLongerAwaiting

  datatype ExecuteResult = Reserved | Reused | NotExecutable

  datatype CancelResult = CancelledNow | CancelRefused | StateChanged

  /** A proposed remediation: new, or one the incident already has. */
  datatype Proposal = New(rid: RemId, input: Policy.Input, key: string) | Existing(rid: RemId)

  datatype Fate = Waits | GivenUp | SentAgain

  datatype ReconcileResult = ReconcileResult(redispatched: seq<RemId>, exhausted: seq<RemId>, waiting: seq<RemId>)

  /** How a handler came out: result, error to retry later, error for good, or no answer before the deadline. */
  datatype Handled = Result | Retry | Error | Deadline

  class Plane {
    const cfg: Config
    var table: Table
    var wantsApproval: set<RemId>
    var clock: Time
    var stream: seq<Message>
    var dispatchers: map<nat, Dispatcher>
    var workers: map<nat, Worker>
    var invocations: seq<Invocation>
    var calls: seq<ControlState.Call>
    ghost var history: seq<Step>

    function Value(): System
      reads this
    {
      System(table, wantsApproval, clock, stream, dispatchers, workers, invocations, calls)
    }

    ghost predicate Valid()
      reads this
    {
      Value() == Run(cfg, history)
    }

    constructor (cfg: Config)
      ensures Valid() && Value() == INITIAL && this.cfg == cfg
    {
      this.cfg := cfg;
      table, wantsApproval, clock, stream := map[], {}, 0, [];
      dispatchers, workers, invocations, calls := map[], map[], [], [];
      history := [];
    }

    /** Commits one transaction on a remediation's rows. */
    method Save(rid: RemId, r: Record, ghost tx: Transaction)
      requires Valid() && rid in table && r == Transact(cfg, table[rid], tx)
      modifies this`table, this`history
      ensures Valid() && history == old(history) + [OnRecord(rid, tx)] && table == old(table)[rid := r]
    {
      hide Run, Transact;
      TransactStep(cfg, history, rid, tx);
      table := table[rid := r];
      history := history + [OnRecord(rid, tx)];
    }

    // ----- Approvals -----

    /** Inserts the approval request unless there is one. */
    method CreateRequest(rid: RemId, now: Time)
      requires Valid() && rid in table && rid in wantsApproval
      modifies this`table, this`history
      ensures Valid() && history == old(history) + [OpenRequest(rid, now)]
      ensures table == old(table)[rid := RequestApproval(cfg, old(table)[rid], now)]
      ensures old(table)[rid].request.Some? ==> table == old(table)
      ensures old(table)[rid].request.None? ==>
                table[rid] == old(table)[rid].(request :=
                  Some(Request(ReqPending, old(table)[rid].rem.proposedBy, now + cfg.approvalTimeout, None, "", "")))
    {
      assert table == table[rid := table[rid]];
      hide Run;
      OpenStep(cfg, history, rid, now);
      var r := table[rid];
      if r.request.None? {
        r := r.(request := Some(Request(ReqPending, r.rem.proposedBy, now + cfg.approvalTimeout, None, "", "")));
      }
      table := table[rid := r];
      history := history + [OpenRequest(rid, now)];
    }

    method Decide(rid: RemId, actor: string, approve: bool, reason: string, now: Time) returns (result: DecideResult)
      requires Valid()
      modifies this`table, this`history
      ensures Valid() && old(history) <= history
      ensures rid !in old(table) ==> table == old(table)
      ensures rid in old(table) ==> table == old(table)[rid := Records.Decide(cfg, old(table)[rid], actor, approve, reason, now)]
      ensures result == Decided <==> rid in old(table) && Decidable(old(table)[rid], now)
                                     && Entitled(cfg, old(table)[rid].request.value.requestedBy, actor, reason)
      ensures result == Decided ==> rid in table && table[rid].rem.status == (if approve then Approved else Rejected)
      ensures result != Decided && result != Expired ==> table == old(table)
    {
      hide Run, ValidDecision, Separated, Different, Visible;
      if rid !in table { return NotFound; }
      var r := table[rid];
      assert table == table[rid := r];
      ghost var tx := ToDecide(actor, approve, reason, now);
      DecisionNeeds(cfg, if r.request.Some? then r.request.value.requestedBy else "", actor, reason);
      if !ValidDecision(actor, reason) { return Refused; }
      if r.request.None? { return NotFound; }
      var q := r.request.value;
      if !Separated(cfg, q.requestedBy, actor) { return Refused; }
      if q.status != ReqPending { return AlreadyDecided; }
      if now >= q.expiresAt {
        Save(rid, ExpireRequest(r), tx);
        return Expired;
      }
      q := q.(status := ReqDenied, decidedAt := Some(now), decidedBy := actor, reason := TrimSpace(reason));
      var status, deed := Rejected, WasRejected;
      if approve { q, status, deed := q.(status := ReqApproved), Approved, WasApproved; }
      if r.rem.status != AwaitingApproval { return NoLongerAwaiting; }
      Save(rid, Record(r.rem.(status := status), Some(q), r.outbox, r.trail + [Entry(deed, status)]), tx);
      result := Decided;
    }

    /** One conditional update; reports whether the request was still pending. */
    method ExpireOne(rid: RemId, now: Time) returns (ok: bool)
      requires Valid() && rid in table && table[rid].request.Some? && table[rid].request.value.expiresAt <= now
      modifies this`table, this`history
      ensures Valid() && old(history) <= history
      ensures table == old(table)[rid := ExpireIfDue(old(table)[rid], now)]
      ensures ok <==> old(table)[rid].request.value.status == ReqPending
      ensures !ok ==> table == old(table)
      ensures ok ==> RanOut(old(table)[rid], table[rid])
    {
      assert table == table[rid := table[rid]];
      hide Run, ExpireRequest;
      var r := table[rid];
      ok := r.request.value.status == ReqPending;
      if ok { r := ExpireRequest(r); }
      Save(rid, r, ToExpire(now));
    }

    /** Expires the requests that were found due, each in its own transaction; returns those it expired. */
    method ExpireDue(due: seq<RemId>, now: Time) returns (expired: seq<RemId>)
      requires Valid() && forall i, j :: 0 <= i < j < |due| ==> due[i] != due[j]
      requires forall rid :: rid in due ==>
                 rid in table && table[rid].request.Some? && table[rid].request.value.expiresAt <= now
      modifies this`table, this`history
      ensures Valid() && old(history) <= history && table.Keys == old(table).Keys
      ensures forall rid :: rid in table ==>
                table[rid] == if rid in due then ExpireIfDue(old(table)[rid], now) else old(table)[rid]
      ensures forall rid :: rid in expired <==> rid in due && old(table)[rid].request.value.status == ReqPending
      ensures forall rid :: rid in table ==>
                if rid in expired then RanOut(old(table)[rid], table[rid]) else table[rid] == old(table)[rid]
    {
      hide Run, ExpireIfDue, RanOut;
      expired := [];
      for i := 0 to |due|
        invariant Valid() && old(history) <= history && table.Keys == old(table).Keys
        invariant forall rid :: rid in table ==>
                    table[rid] == if rid in due[..i] then ExpireIfDue(old(table)[rid], now) else old(table)[rid]
        invariant forall rid :: rid in expired <==> rid in due[..i] && old(table)[rid].request.value.status == ReqPending
        invariant forall rid :: rid in table ==>
                    if rid in expired then RanOut(old(table)[rid], table[rid]) else table[rid] == old(table)[rid]
      {
        assert due[..i + 1] == due[..i] + [due[i]] && due[i] !in due[..i] && due[i] in due;
        var ok := ExpireOne(due[i], now);
        if ok { expired := expired + [due[i]]; }
      }
      assert due[..|due|] == due;
    }

    // ----- Proposals -----

    /** Makes sure the approval request of an existing remediation is open. */
    method ProposeAgain(rid: RemId, now: Time)
      requires Valid() && rid in table
      modifies this`table, this`wantsApproval, this`history
      ensures Valid() && old(history) <= history && table.Keys == old(table).Keys
      ensures table[rid].rem == old(table)[rid].rem
      ensures table[rid].rem.status == AwaitingApproval ==> table[rid].request.Some?
      ensures forall other :: other in table && other != rid ==> table[other] == old(table)[other]
    {
      hide Run;
      if table[rid].rem.status == AwaitingApproval {
        SeeStep(cfg, history, rid);
        wantsApproval := wantsApproval + {rid};
        history := history + [SeeAwaiting(rid)];
        CreateRequest(rid, now);
      }
      NoteOn(rid, ProposalReused, table[rid].rem.status);
    }

    /** Evaluates, stores and audits a new remediation, and opens its approval request. Fails when the idempotency key
        is taken. */
    method ProposeNew(rid: RemId, input: Policy.Input, proposer: string, key: string, now: Time) returns (ok: bool)
      requires Valid() && rid !in table
      modifies this`table, this`wantsApproval, this`history
      ensures Valid() && old(history) <= history
      ensures !ok <==> KeyTaken(old(table), key)
      ensures !ok ==> table == old(table)
      ensures ok ==> rid in table && table == old(table)[rid := table[rid]]
      ensures ok ==> table[rid].rem == Propose(cfg, input, proposer, key).rem
      ensures ok ==> IsProposal(cfg, input, proposer, key, table[rid])
      ensures ok ==> (table[rid].request.Some? <==> table[rid].rem.status == AwaitingApproval)
    {
      hide Run, Policy.Evaluate, KeyTaken, Policy.Permitted;
      Policy.PolicyGate(cfg.environments, input);
      if KeyTaken(table, key) { return false; }
      var decision := Policy.Evaluate(cfg.environments, input);
      var status := PolicyBlocked;
      if decision.allow && decision.requiresApproval { status := AwaitingApproval; }
      if decision.allow && !decision.requiresApproval { status := Approved; }
      CreateStep(cfg, history, rid, input, proposer, key);
      var rem := Remediation(input.action, input.target, input.parameters, proposer, key, decision.allow,
                             decision.requiresApproval, status, true, None, None);
      table := table[rid := Record(rem, None, [], [Entry(WasProposed, status)])];
      wantsApproval := wantsApproval + if status == AwaitingApproval then {rid} else {};
      history := history + [Create(rid, input, proposer, key)];
      if status == AwaitingApproval { CreateRequest(rid, now); }
      ok := true;
    }

    /** Proposes one remediation after the other. On success nothing proposed awaits an approval nobody was asked for. */
    method ProposeAll(proposals: seq<Proposal>, proposer: string, now: Time) returns (ok: bool)
      requires Valid() && forall i :: 0 <= i < |proposals| && proposals[i].Existing? ==> proposals[i].rid in table
      requires forall i :: 0 <= i < |proposals| && proposals[i].New? ==>
                 proposals[i].rid !in table && forall j :: 0 <= j < i ==> proposals[j].rid != proposals[i].rid
      modifies this`table, this`wantsApproval, this`history
      ensures Valid() && old(history) <= history
      ensures ok ==> forall i :: 0 <= i < |proposals| ==>
                proposals[i].rid in table &&
                (table[proposals[i].rid].rem.status == AwaitingApproval ==> table[proposals[i].rid].request.Some?)
    {
      hide Run, KeyTaken, Propose;
      for n := 0 to |proposals|
        invariant Valid() && old(history) <= history && old(table).Keys <= table.Keys
        invariant forall rid :: rid in table ==> rid in old(table) || exists j :: 0 <= j < n && proposals[j].rid == rid
        invariant forall i :: 0 <= i < n ==>
                    proposals[i].rid in table &&
                    (table[proposals[i].rid].rem.status == AwaitingApproval ==> table[proposals[i].rid].request.Some?)
      {
        match proposals[n]
        case Existing(rid) => ProposeAgain(rid, now);
        case New(rid, input, key) =>
          var created := ProposeNew(rid, input, proposer, key, now);
          if !created { return false; }
      }
      ok := true;
    }

    // ----- Cancellation and execution -----

    /** Cancels the approval request together with the work that awaits it. */
    method CancelAwaiting(rid: RemId, actor: string, now: Time) returns (ok: bool)
      requires Valid() && rid in table
      modifies this`table, this`history
      ensures Valid() && old(history) <= history
      ensures table == old(table)[rid := CancelApproval(old(table)[rid], actor, CANCEL_TEXT, now)]
      ensures ok <==> old(table)[rid].rem.status == AwaitingApproval && MayCancel(old(table)[rid], actor)
      ensures !ok ==> table == old(table)
    {
      hide Run, Blank, Visible;
      TrimmedIsCore(actor, "");
      var r := table[rid];
      assert table == table[rid := r];
      if Blank(actor) || r.request.None? || r.request.value.status != ReqPending { return false; }
      if r.rem.status != AwaitingApproval { return false; }
      var q := r.request.value.(status := ReqCancelled, decidedAt := Some(now), decidedBy := actor, reason := CANCEL_TEXT);
      Save(rid, Record(r.rem.(status := Cancelled), Some(q), r.outbox, r.trail + [Entry(WasCancelled, Cancelled)]),
           ToCancelApproval(actor, CANCEL_TEXT, now));
      ok := true;
    }

    /** Cancels on the status read beforehand, which may be stale by now. */
    method Cancel(rid: RemId, observed: Status, actor: string, now: Time) returns (result: CancelResult)
      requires Valid() && rid in table
      modifies this`table, this`history
      ensures Valid() && old(history) <= history
      ensures result == CancelledNow ==>
                rid in table && table[rid].rem.status == Cancelled && old(table)[rid].rem.status == observed != Running
      ensures result != CancelledNow ==> table == old(table)
      ensures result == CancelledNow <==> old(table)[rid].rem.status == observed && MayCancel(old(table)[rid], actor)
      ensures result == CancelledNow ==>
                table == old(table)[rid := table[rid]] && CalledOff(old(table)[rid], table[rid], actor, now)
    {
      hide Run, Blank, Visible, CalledOff, CancelApproval;
      var r := table[rid];
      if r.rem.status == observed && MayCancel(r, actor) { CancelMeans(r, observed, actor, now); }
      if observed == AwaitingApproval {
        var ok := CancelAwaiting(rid, actor, now);
        return if ok then CancelledNow else CancelRefused;
      }
      if !CanTransition(observed, Cancelled) { return CancelRefused; }
      if r.rem.status != observed { return StateChanged; }
      Save(rid, Record(r.rem.(status := Cancelled), r.request, r.outbox, r.trail + [Entry(WasCancelled, Cancelled)]),
           ToCancel(observed));
      result := CancelledNow;
    }

    /** Reserves approved work and writes its job in the same transaction; repeated calls are told it is under way. */
    method Execute(rid: RemId, observed: Status, dryRun: bool, now: Time) returns (result: ExecuteResult)
      requires Valid() && rid in table
      modifies this`table, this`history
      ensures Valid() && old(history) <= history && table.Keys == old(table).Keys
      ensures result == Reserved ==>
                && table == old(table)[rid := Reserve(old(table)[rid], dryRun, now)]
                && IsReserved(old(table)[rid], table[rid], dryRun, now)
      ensures result == Reserved <==> observed == Approved && old(table)[rid].rem.status == Approved
      ensures result == Reused <==>
                || observed in {Queued, Running, Succeeded}
                || (observed == Approved && old(table)[rid].rem.status in {Queued, Running, Succeeded})
      ensures result == Reused ==> table == old(table)[rid := table[rid]] && ReuseNoted(old(table)[rid], table[rid])
      ensures result == NotExecutable ==> table == old(table)
    {
      hide Run, IsReserved, ReuseNoted, HasId, Reserve;
      if table[rid].rem.status == Approved { ReservedInRun(cfg, history, rid, dryRun, now); }
      if observed == Succeeded || observed == Queued || observed == Running {
        NoteReuse(rid, observed);
        return Reused;
      }
      if observed == AwaitingApproval || IsTerminal(observed) || !CanTransition(observed, Queued) { return NotExecutable; }
      var r := table[rid];
      var id := Id(r.rem.key, now, None);
      if r.rem.status != Approved || HasId(r.outbox, id) {
        if r.rem.status == Queued || r.rem.status == Running || r.rem.status == Succeeded {
          NoteReuse(rid, r.rem.status);
          return Reused;
        }
        return NotExecutable;
      }
      ReserveRow(rid, id, dryRun, now);
      result := Reserved;
    }

    /** The reservation, its job and its audit entry in one transaction. */
    method ReserveRow(rid: RemId, id: Id, dryRun: bool, now: Time)
      requires Valid() && rid in table && table[rid].rem.status == Approved
      requires id == Id(table[rid].rem.key, now, None) && !HasId(table[rid].outbox, id)
      modifies this`table, this`history
      ensures Valid() && old(history) <= history
      ensures table == old(table)[rid := Reserve(old(table)[rid], dryRun, now)]
    {
      hide Run, HasId;
      var r := table[rid];
      var rem := r.rem.(status := Queued, queuedAt := Some(now), dryRun := dryRun);
      var job := NewDispatch(id, DispatchIds.Execute, now);
      Save(rid, Record(rem, r.request, r.outbox + [job], r.trail + [Entry(ExecuteRequested, Queued)]), ToReserve(dryRun, now));
    }

    method NoteReuse(rid: RemId, seen: Status)
      requires Valid() && rid in table
      modifies this`table, this`history
      ensures Valid() && old(history) <= history && table.Keys == old(table).Keys
      ensures table == old(table)[rid := table[rid]] && ReuseNoted(old(table)[rid], table[rid])
    {
      NoteOn(rid, ExecutionReused, seen);
    }

    /** An audit entry of its own. */
    method NoteOn(rid: RemId, deed: Deed, seen: Status)
      requires Valid() && rid in table && !ChangesState(deed)
      modifies this`table, this`history
      ensures Valid() && old(history) <= history
      ensures table == old(table)[rid := Note(old(table)[rid], deed, seen)]
    {
      hide Run;
      var r := table[rid];
      Save(rid, r.(trail := r.trail + [Entry(deed, seen)]), ToNote(deed, seen));
    }

    // ----- Reconciliation -----

    /** Sends a job again at somebody's request; refused unless the work is queued or running. */
    method Replay(rid: RemId, now: Time) returns (ok: bool)
      requires Valid() && rid in table
      modifies this`table, this`history
      ensures Valid() && old(history) <= history
      ensures ok <==> old(table)[rid].rem.status in {Queued, Running}
      ensures !ok ==> table == old(table)
      ensures ok ==> rid in table && table == old(table)[rid := table[rid]]
                     && JobAdded(old(table)[rid], table[rid], DispatchIds.Replay, now)
    {
      hide Run, JobAdded;
      var r := table[rid];
      if !Dispatchable(r.rem.status) { return false; }
      JobIsAddedInRun(cfg, history, rid, DispatchIds.Replay, now);
      Save(rid, SendAgain(r, DispatchIds.Replay, now), ToReplay(now));
      ok := true;
    }

    /** One stuck remediation: waits for a worker, is given up on, or gets a new job. */
    method ReconcileOne(rid: RemId, hasWorker: bool, now: Time, before: ReconcileResult) returns (result: ReconcileResult)
      requires Valid() && rid in table && Stuck(cfg, table[rid], now)
      modifies this`table, this`history
      ensures Valid() && old(history) <= history
      ensures table == old(table)[rid := Records.Reconcile(cfg, old(table)[rid], hasWorker, now)]
      ensures result == AddTo(before, rid, FateOf(cfg, old(table)[rid], hasWorker))
      ensures MetFate(cfg, old(table)[rid], table[rid], hasWorker, now)
    {
      hide MetFate;
      FateInRun(cfg, history, rid, hasWorker, now);
      hide Run, Stuck, Redispatches;
      result := before;
      var r := table[rid];
      if !hasWorker {
        assert table == table[rid := r];
        return before.(waiting := before.waiting + [rid]);
      }
      if Redispatches(r.outbox) >= cfg.maxRedispatches {
        Save(rid, Finish(r, Exhausted), ToReconcile(hasWorker, now));
        return before.(exhausted := before.exhausted + [rid]);
      }
      Save(rid, SendAgain(r, Redispatch, now), ToReconcile(hasWorker, now));
      result := before.(redispatched := before.redispatched + [rid]);
    }

    /** One pass over the stuck remediations the query found. */
    method ReconcileFound(found: seq<(RemId, bool)>, now: Time) returns (result: ReconcileResult)
      requires Valid() && forall i, j :: 0 <= i < j < |found| ==> found[i].0 != found[j].0
      requires forall i :: 0 <= i < |found| ==> found[i].0 in table && Stuck(cfg, table[found[i].0], now)
      modifies this`table, this`history
      ensures Valid() && old(history) <= history && table.Keys == old(table).Keys
      ensures forall i :: 0 <= i < |found| ==>
                table[found[i].0] == Reconcile(cfg, old(table)[found[i].0], found[i].1, now)
                && MetFate(cfg, old(table)[found[i].0], table[found[i].0], found[i].1, now)
      ensures forall rid :: rid in table && (forall i :: 0 <= i < |found| ==> found[i].0 != rid) ==> table[rid] == old(table)[rid]
      ensures |result.redispatched| + |result.exhausted| + |result.waiting| == |found|
      ensures forall i :: 0 <= i < |found| ==> ListedAs(result, found[i].0, FateOf(cfg, old(table)[found[i].0], found[i].1))
    {
      hide Run, Stuck, Reconcile, FateOf, ListedAs, MetFate;
      result := ReconcileResult([], [], []);
      for n := 0 to |found|
        invariant Valid() && old(history) <= history && table.Keys == old(table).Keys
        invariant forall i :: 0 <= i < n ==>
                    table[found[i].0] == Reconcile(cfg, old(table)[found[i].0], found[i].1, now)
                    && MetFate(cfg, old(table)[found[i].0], table[found[i].0], found[i].1, now)
        invariant forall rid :: rid in table && (forall i :: 0 <= i < n ==> found[i].0 != rid) ==> table[rid] == old(table)[rid]
        invariant |result.redispatched| + |result.exhausted| + |result.waiting| == n
        invariant forall i :: 0 <= i < n ==> ListedAs(result, found[i].0, FateOf(cfg, old(table)[found[i].0], found[i].1))
        invariant forall i :: n <= i < |found| ==> Unlisted(result, found[i].0)
      {
        assert table[found[n].0] == old(table)[found[n].0];
        AddedIsListed(result, found[n].0, FateOf(cfg, table[found[n].0], found[n].1));
        result := ReconcileOne(found[n].0, found[n].1, now, result);
      }
    }

    // ----- The dispatcher -----

    /** Locks a batch of due rows. */
    method SelectRows(d: nat, rows: seq<(RemId, nat)>, now: Time)
      requires Valid() && d !in dispatchers && DistinctRows(rows)
      requires forall i :: 0 <= i < |rows| ==> Selectable(Value(), rows[i], now)
      modifies this`dispatchers, this`history
      ensures Valid() && old(history) <= history
      ensures dispatchers == old(dispatchers)[d := Dispatcher(old(Batch(Value(), rows, now)), [])]
    {
      hide Run, Selectable, Batch;
      DispatcherStep(cfg, history, Select(d, rows, now));
      history := history + [Select(d, rows, now)];
      dispatchers := dispatchers[d := Dispatcher(Batch(Value(), rows, now), [])];
    }

    /** The next row of a batch: skipped when its remediation is over, otherwise published. */
    method PublishNext(d: nat, ack: Ack, now: Time) returns (outcome: Outcome)
      requires Valid() && d in dispatchers && |dispatchers[d].todo| > 0
      modifies this`dispatchers, this`stream, this`history
      ensures Valid() && old(history) <= history
      ensures var b := old(dispatchers)[d];
              && HandledAs((b.todo[0], outcome), b.todo[0], ack, now)
              && dispatchers == old(dispatchers)[d := Dispatcher(if outcome.NotSent? then [] else b.todo[1..],
                                                                 b.done + [(b.todo[0], outcome)])]
      ensures stream == if outcome.Skip? || ack.Lost? then old(stream)
                        else Stored(cfg, old(Value()), old(dispatchers)[d].todo[0].id, old(dispatchers)[d].todo[0].rid)
    {
      hide Run, Stored;
      DispatcherStep(cfg, history, Publish(d, ack, now));
      history := history + [Publish(d, ack, now)];
      var b := dispatchers[d];
      var item, todo := b.todo[0], b.todo[1..];
      if !Dispatchable(item.seen) {
        outcome := Skip;
      } else {
        if !ack.Lost? { stream := Stored(cfg, Value(), item.id, item.rid); }
        if ack.Acknowledged? { outcome := Sent(now); } else { outcome, todo := NotSent(now), []; }
      }
      dispatchers := dispatchers[d := Dispatcher(todo, b.done + [(item, outcome)])];
    }

    /** Commits what became of a batch and releases its locks. */
    method CommitRows(d: nat)
      requires Valid() && d in dispatchers && |dispatchers[d].todo| == 0
      modifies this`table, this`dispatchers, this`history
      ensures Valid() && old(history) <= history
      ensures table == MarkRows(old(table), old(dispatchers)[d].done) && dispatchers == old(dispatchers) - {d}
    {
      hide Run, MarkRows;
      DispatcherStep(cfg, history, Commit(d));
      history := history + [Commit(d)];
      table := MarkRows(table, dispatchers[d].done);
      dispatchers := dispatchers - {d};
    }

    /** Works a locked batch off in order. A publish that fails ends the batch; the outside decides each publish. */
    method PublishAll(d: nat, acks: seq<Ack>, now: Time) returns (published: nat, ghost done: seq<(Item, Outcome)>)
      requires Valid() && d in dispatchers && dispatchers[d].done == [] && |acks| == |dispatchers[d].todo|
      modifies this`dispatchers, this`stream, this`history
      ensures Valid() && old(history) <= history && dispatchers == old(dispatchers)[d := Dispatcher([], done)]
      ensures PartOf(old(dispatchers)[d].todo, acks, now, done, []) && published == CountSent(done)
    {
      ghost var batch := dispatchers[d].todo;
      assert CountSent([]) == 0;
      hide Run, HandledAs, Stored, CountSent;
      done, published := [], 0;
      assert PartOf(batch, acks, now, done, batch);
      assert dispatchers == dispatchers[d := Dispatcher(batch, done)];
      while |dispatchers[d].todo| > 0
        invariant Valid() && old(history) <= history && published == CountSent(done)
        invariant d in dispatchers && dispatchers == old(dispatchers)[d := Dispatcher(dispatchers[d].todo, done)]
        invariant PartOf(batch, acks, now, done, dispatchers[d].todo)
        decreases |dispatchers[d].todo|
      {
        ghost var todo := dispatchers[d].todo;
        NotPast(batch, acks, now, done, todo);
        var outcome := PublishNext(d, acks[|dispatchers[d].done|], now);
        if outcome.Sent? { published := published + 1; }
        OneMoreHandled(batch, acks, now, done, todo, outcome);
        done := done + [(todo[0], outcome)];
        SetTwice(old(dispatchers), d, Dispatcher(todo, done[..|done| - 1]), dispatchers[d]);
      }
    }

    /** Publishes a batch of due rows and commits what became of them. */
    method PublishBatch(d: nat, rows: seq<(RemId, nat)>, acks: seq<Ack>, now: Time)
      returns (published: nat, ghost done: seq<(Item, Outcome)>)
      requires Valid() && d !in dispatchers && |acks| == |rows| && DistinctRows(rows)
      requires forall i :: 0 <= i < |rows| ==> Selectable(Value(), rows[i], now)
      modifies this`table, this`dispatchers, this`stream, this`history
      ensures Valid() && old(history) <= history && dispatchers == old(dispatchers)
      ensures table == MarkRows(old(table), done) && published == CountSent(done)
      ensures PartOf(old(Batch(Value(), rows, now)), acks, now, done, [])
    {
      hide Run, Selectable, Batch, MarkRows, PartOf, CountSent;
      BatchSize(Value(), rows, now);
      SelectRows(d, rows, now);
      published, done := PublishAll(d, acks, now);
      CommitRows(d);
    }

    // ----- A worker -----

    /** Takes a message and reads its row; a message for work that is not under way is stale. */
    method ReadJob(w: nat, m: nat) returns (ready: bool)
      requires Valid() && PC(Value(), w).Idle? && m < |stream|
      modifies this`workers, this`history
      ensures Valid() && old(history) <= history
      ensures var rid := stream[m].rid;
              && (ready <==> rid in table && Dispatchable(table[rid].rem.status))
              && PC(Value(), w) == if ready then Checked(rid, table[rid].rem) else Idle
    {
      hide Run;
      WorkerStep(cfg, history, Deliver(w, m));
      history := history + [Deliver(w, m)];
      var rid := stream[m].rid;
      workers := workers[w := Delivered(rid)];
      WorkerStep(cfg, history, Check(w));
      history := history + [Check(w)];
      ready := rid in table && Dispatchable(table[rid].rem.status);
      workers := workers[w := if ready then Checked(rid, table[rid].rem) else Idle];
    }

    /** Records a terminal outcome and its audit entry, unless the work is already over. */
    method FinishOn(rid: RemId, ending: Ending) returns (applied: bool, r: Record)
      requires rid in table
      ensures r == Finish(table[rid], ending) && (applied <==> Dispatchable(table[rid].rem.status))
      ensures if applied then EndedAs(table[rid], r, ending) else r == table[rid]
    {
      r := table[rid];
      applied := Dispatchable(r.rem.status);
      if applied {
        r := r.(rem := r.rem.(status := EndStatus(ending)), trail := r.trail + [Entry(EndDeed(ending), EndStatus(ending))]);
      }
    }

    /** No handler for the action, or the handler refuses the row. */
    method RefuseJob(w: nat)
      requires Valid() && PC(Value(), w).Checked? && PC(Value(), w).rid in table && !Runnable(cfg, PC(Value(), w).snap)
      modifies this`table, this`workers, this`history
      ensures Valid() && old(history) <= history && PC(Value(), w).Idle?
      ensures var pc := old(PC(Value(), w));
              table == old(table)[pc.rid := Finish(old(table)[pc.rid], if pc.snap.action in cfg.handlers then Invalid else Broke)]
      ensures var pc := old(PC(Value(), w));
              Dispatchable(old(table)[pc.rid].rem.status) ==>
                WentTo(old(table)[pc.rid], table[pc.rid],
                       if pc.snap.action in cfg.handlers then ValidationFailed else JobFailed, Failed)
    {
      hide Run, Runnable, Finish;
      WorkerStep(cfg, history, Reject(w));
      history := history + [Reject(w)];
      var pc := workers[w];
      var applied, r := FinishOn(pc.rid, if pc.snap.action in cfg.handlers then Invalid else Broke);
      table := table[pc.rid := r];
      workers := workers[w := Idle];
    }

    /** Records that a job was not run, except for a copy of one that succeeded. */
    method SkipJob(rid: RemId)
      requires Valid() && rid in table
      modifies this`table, this`history
      ensures Valid() && old(history) <= history
      ensures table == old(table)[rid := PassedOver(old(table)[rid])]
    {
      var status := table[rid].rem.status;
      assert table == table[rid := table[rid]];
      if status != Succeeded { NoteOn(rid, ExecutionSkipped, status); }
    }

    /** Claims the row unless it left queued and running since it was read. */
    method ClaimRow(w: nat, now: Time) returns (claimed: bool)
      requires Valid() && PC(Value(), w).Checked? && PC(Value(), w).rid in table && Runnable(cfg, PC(Value(), w).snap)
      modifies this`table, this`workers, this`history
      ensures Valid() && old(history) <= history
      ensures var pc := old(PC(Value(), w));
              && (claimed <==> Dispatchable(old(table)[pc.rid].rem.status))
              && PC(Value(), w) == (if claimed then Claimed(pc.rid, pc.snap) else Idle)
              && table == old(table)[pc.rid := if claimed then Claim(old(table)[pc.rid], now) else PassedOver(old(table)[pc.rid])]
    {
      hide Run, Runnable;
      WorkerStep(cfg, history, ClaimJob(w, now));
      history := history + [ClaimJob(w, now)];
      var pc := workers[w];
      var r := table[pc.rid];
      claimed := Dispatchable(r.rem.status);
      if claimed {
        var startedAt := if r.rem.startedAt.Some? then r.rem.startedAt else Some(now);
        table := table[pc.rid := r.(rem := r.rem.(status := Running, startedAt := startedAt))];
        workers := workers[w := Claimed(pc.rid, pc.snap)];
      } else {
        workers := workers[w := Idle];
        SkipJob(pc.rid);
      }
    }

    /** Starts the handler on the row as it was read. */
    method StartHandler(w: nat)
      requires Valid() && PC(Value(), w).Claimed?
      modifies this`workers, this`invocations, this`history
      ensures Valid() && old(history) <= history
      ensures var pc := old(PC(Value(), w));
              PC(Value(), w) == Invoked(pc.rid, pc.snap) && invocations == old(invocations) + [Invocation(pc.rid, pc.snap)]
    {
      hide Run;
      var pc := workers[w];
      WorkerStep(cfg, history, Invoke(w));
      history := history + [Invoke(w)];
      workers := workers[w := Invoked(pc.rid, pc.snap)];
      invocations := invocations + [Invocation(pc.rid, pc.snap)];
    }

    /** The control-state call of a started handler; nothing bounds how late it comes. */
    method LandEffect(n: nat)
      requires Valid() && n < |invocations|
      modifies this`calls, this`history
      ensures Valid() && old(history) <= history
      ensures calls == if HasEffect(invocations[n].snap) then old(calls) + [CallOf(invocations[n].snap)] else old(calls)
    {
      hide Run, HasEffect, CallOf;
      WorkerStep(cfg, history, Effect(n));
      history := history + [Effect(n)];
      if HasEffect(invocations[n].snap) { calls := calls + [CallOf(invocations[n].snap)]; }
    }

    /** Leaves the row running for the next delivery. */
    method AbandonJob(w: nat)
      requires Valid() && PC(Value(), w).Invoked?
      modifies this`workers, this`history
      ensures Valid() && old(history) <= history && PC(Value(), w).Idle?
    {
      hide Run;
      WorkerStep(cfg, history, Abandon(w));
      history := history + [Abandon(w)];
      workers := workers[w := Idle];
    }

    method EndJob(w: nat, ending: Ending) returns (applied: bool)
      requires Valid() && PC(Value(), w).Invoked? && PC(Value(), w).rid in table && ending in {Done, Broke, Late}
      modifies this`table, this`workers, this`history
      ensures Valid() && old(history) <= history && PC(Value(), w).Idle?
      ensures var rid := old(PC(Value(), w)).rid;
              && table == old(table)[rid := Finish(old(table)[rid], ending)]
              && (applied <==> Dispatchable(old(table)[rid].rem.status))
    {
      hide Run, Finish, EndedAs, RejectJob, TryClaim, InvokeHandler, ApplyEffect, CheckMessage, TakeMessage;
      var pc := workers[w];
      WorkerStep(cfg, history, FinishJob(w, ending));
      history := history + [FinishJob(w, ending)];
      var r;
      applied, r := FinishOn(pc.rid, ending);
      table := table[pc.rid := r];
      workers := workers[w := Idle];
    }

    /** Records how the handler came out. */
    method ConcludeJob(w: nat, handled: Handled)
      requires Valid() && PC(Value(), w).Invoked? && PC(Value(), w).rid in table
      modifies this`table, this`workers, this`history
      ensures Valid() && old(history) <= history && PC(Value(), w).Idle?
      ensures var rid := old(PC(Value(), w)).rid;
              table == old(table)[rid := Concluded(old(table)[rid], handled)]
      ensures var rid := old(PC(Value(), w)).rid;
              old(table)[rid].rem.status == Running ==> CameOut(old(table)[rid], table[rid], handled)
    {
      hide Run, Valid, Note, CameOut;
      ConcludedMeans(table[workers[w].rid], handled);
      var rid := workers[w].rid;
      if handled.Retry? {
        AbandonJob(w);
        NoteOn(rid, RetryScheduled, Running);
        return;
      }
      var applied := EndJob(w, EndingOf(handled));
      if handled.Result? && !applied { NoteOn(rid, CompletionConflict, table[rid].rem.status); }
    }

    /** Claim, handler and outcome of a job that was just read and accepted. */
    method PerformJob(w: nat, handled: Handled, lands: bool, now: Time)
      requires Valid() && PC(Value(), w).Checked? && PC(Value(), w).rid in table && Runnable(cfg, PC(Value(), w).snap)
      requires Dispatchable(table[PC(Value(), w).rid].rem.status)
      modifies this`table, this`workers, this`invocations, this`calls, this`history
      ensures Valid() && old(history) <= history && PC(Value(), w).Idle? && table.Keys == old(table).Keys
      ensures var pc := old(PC(Value(), w));
              && invocations == old(invocations) + [Invocation(pc.rid, pc.snap)]
              && table == old(table)[pc.rid := Concluded(Claim(old(table)[pc.rid], now), handled)]
    {
      hide Run, Runnable, HasEffect, CallOf, Concluded;
      var claimed := ClaimRow(w, now);
      StartHandler(w);
      if lands { LandEffect(|invocations| - 1); }
      ConcludeJob(w, handled);
    }

    /** One message, as a worker handles it when nothing interrupts it. The handler is called at most once, and only
        for work that is queued or running, has a registered handler and passes its validation. */
    method HandleMessage(w: nat, m: nat, handled: Handled, lands: bool, now: Time) returns (ran: bool)
      requires Valid() && PC(Value(), w).Idle? && m < |stream|
      modifies this`table, this`workers, this`invocations, this`calls, this`history
      ensures Valid() && old(history) <= history && PC(Value(), w).Idle? && table.Keys == old(table).Keys
      ensures var rid := stream[m].rid;
              && (ran <==> rid in old(table) && Dispatchable(old(table)[rid].rem.status) && Runnable(cfg, old(table)[rid].rem))
              && (ran ==> invocations == old(invocations) + [Invocation(rid, old(table)[rid].rem)])
              && (ran ==> CameOut(old(table)[rid], table[rid], handled))
              && (!ran ==> invocations == old(invocations) && calls == old(calls))
      ensures var rid := stream[m].rid;
              table == if rid in old(table) then old(table)[rid := Handle(cfg, old(table)[rid], handled, now)] else old(table)
      ensures var rid := stream[m].rid;
              rid in old(table) && !ran ==> NotRun(cfg, old(table)[rid], table[rid])
    {
      hide Run, Runnable, EndingOf, Finish, Concluded, Claim, PassedOver, CameOut, NotRun;
      if stream[m].rid in table { HandleMeans(cfg, table[stream[m].rid], handled, now); }
      ran := false;
      var ready := ReadJob(w, m);
      var rid := stream[m].rid;
      if !ready {
        if rid in table { SkipJob(rid); }
        return;
      }
      if !Runnable(cfg, workers[w].snap) {
        RefuseJob(w);
        return;
      }
      PerformJob(w, handled, lands, now);
      ran := true;
    }
  }

  function EndingOf(handled: Handled): Ending {
    match handled case Result => Done case Retry => Broke case Error => Broke case Deadline => Late
  }

  /** The list of its fate names the remediation, and no other does. */
  predicate ListedAs(result: ReconcileResult, rid: RemId, fate: Fate) {
    && (rid in result.waiting <==> fate == Waits)
    && (rid in result.exhausted <==> fate == GivenUp)
    && (rid in result.redispatched <==> fate == SentAgain)
  }

  predicate Unlisted(result: ReconcileResult, rid: RemId) {
    rid !in result.waiting && rid !in result.exhausted && rid !in result.redispatched
  }

  function AddTo(before: ReconcileResult, rid: RemId, fate: Fate): ReconcileResult {
    match fate
    case Waits => before.(waiting := before.waiting + [rid])
    case GivenUp => before.(exhausted := before.exhausted + [rid])
    case SentAgain => before.(redispatched := before.redispatched + [rid])
  }

  lemma AddedIsListed(before: ReconcileResult, rid: RemId, fate: Fate)
    requires Unlisted(before, rid)
    ensures ListedAs(AddTo(before, rid, fate), rid, fate)
    ensures forall other, f :: other != rid && ListedAs(before, other, f) ==> ListedAs(AddTo(before, rid, fate), other, f)
    ensures forall other :: other != rid && Unlisted(before, other) ==> Unlisted(AddTo(before, rid, fate), other)
  {
  }

  /** A row whose job was not run. */
  function PassedOver(r: Record): Record {
    if r.rem.status == Succeeded then r else Note(r, ExecutionSkipped, r.rem.status)
  }

  /** A row once its handler came out: a retry is noted and leaves it running, and so is a result that comes too late. */
  function Concluded(r: Record, handled: Handled): Record {
    if handled.Retry? then Note(r, RetryScheduled, Running)
    else if handled.Result? && !Dispatchable(r.rem.status) then Note(r, CompletionConflict, r.rem.status)
    else Finish(r, EndingOf(handled))
  }

  /** A row once a worker handled a message about it: stale, refused, or run. */
  function Handle(cfg: Config, r: Record, handled: Handled, now: Time): Record {
    if !Dispatchable(r.rem.status) then PassedOver(r)
    else if !Runnable(cfg, r.rem) then Finish(r, if r.rem.action in cfg.handlers then Invalid else Broke)
    else Concluded(Claim(r, now), handled)
  }

  /** The request expired, and the work waiting for it with it. */
  predicate RanOut(before: Record, after: Record) {
    && before.request.Some? && after.request == Some(before.request.value.(status := ReqExpired))
    && after.rem == before.rem.(status := if before.rem.status == AwaitingApproval then TimedOut else before.rem.status)
    && after.outbox == before.outbox && after.trail == before.trail + [Entry(ApprovalTimedOut, TimedOut)]
  }

  /** A new row holds what was proposed, not yet to be executed, in the status the policy calls for. */
  predicate IsProposal(cfg: Config, input: Policy.Input, proposer: string, key: string, r: Record) {
    var allowed, free := Policy.Permitted(cfg.environments, input), input.action == CollectDiagnostics && input.requestedRisk in {Unset, Low};
    && r.rem.action == input.action && r.rem.target == input.target && r.rem.parameters == input.parameters
    && r.rem.proposedBy == proposer && r.rem.key == key && r.rem.allowed == allowed && r.rem.dryRun
    && r.rem.queuedAt.None? && r.rem.startedAt.None? && r.outbox == []
    && r.rem.status == (if !allowed then PolicyBlocked else if free then Approved else AwaitingApproval)
    && r.trail == [Entry(WasProposed, r.rem.status)]
  }

  /** Work nobody has started can be called off, and once called off again; while it awaits approval only by somebody
      with a name. */
  predicate MayCancel(r: Record, actor: string) {
    if r.rem.status == AwaitingApproval then r.request.Some? && r.request.value.status == ReqPending && Visible(actor)
    else r.rem.status in {Proposed, Approved, Queued, Cancelled}
  }

  predicate CalledOff(before: Record, after: Record, actor: string, now: Time) {
    && after.rem == before.rem.(status := Cancelled) && after.outbox == before.outbox
    && after.trail == before.trail + [Entry(WasCancelled, Cancelled)]
    && if before.rem.status != AwaitingApproval then after.request == before.request
       else before.request.Some? && after.request ==
            Some(before.request.value.(status := ReqCancelled, decidedAt := Some(now), decidedBy := actor,
                                       reason := CANCEL_TEXT))
  }

  const CANCEL_TEXT := "remediation cancelled by operator"

  lemma CancelMeans(r: Record, observed: Status, actor: string, now: Time)
    requires r.rem.status == observed && MayCancel(r, actor)
    ensures var after := if observed == AwaitingApproval then CancelApproval(r, actor, CANCEL_TEXT, now)
                         else Records.Cancel(r, observed);
            CalledOff(r, after, actor, now) && after.rem.status == Cancelled
  {
    hide Blank, Visible;
    TrimmedIsCore(actor, "");
  }

  /** Reserved work is queued as of now in the mode that was asked for, with one job, to be sent at once. */
  predicate IsReserved(before: Record, after: Record, dryRun: bool, now: Time) {
    && after.rem == before.rem.(status := Queued, queuedAt := Some(now), dryRun := dryRun) && after.request == before.request
    && after.outbox == [Dispatch(Id(before.rem.key, now, None), DispatchIds.Execute, Pending, now, None, 0, now)]
    && after.trail == before.trail + [Entry(ExecuteRequested, Queued)]
  }

  /** Nothing changed but for the note that the work is under way or done already. */
  predicate ReuseNoted(before: Record, after: Record) {
    && after.(trail := before.trail) == before && |after.trail| == |before.trail| + 1 && before.trail <= after.trail
    && after.trail[|before.trail|].deed == ExecutionReused
  }

  lemma ReservedMeans(r: Record, dryRun: bool, now: Time)
    requires r.rem.status == Approved && r.outbox == []
    ensures IsReserved(r, Reserve(r, dryRun, now), dryRun, now)
  {
  }

  lemma ReservedInRun(cfg: Config, history: seq<Step>, rid: RemId, dryRun: bool, now: Time)
    requires rid in Run(cfg, history).table && Run(cfg, history).table[rid].rem.status == Approved
    ensures var r := Run(cfg, history).table[rid];
            IsReserved(r, Reserve(r, dryRun, now), dryRun, now) && !HasId(r.outbox, Id(r.rem.key, now, None))
  {
    hide Run, IsReserved, Reserve;
    ApprovedHasNoJob(cfg, history, rid);
    ReservedMeans(Run(cfg, history).table[rid], dryRun, now);
  }

  lemma ApprovedHasNoJob(cfg: Config, history: seq<Step>, rid: RemId)
    requires rid in Run(cfg, history).table && Run(cfg, history).table[rid].rem.status == Approved
    ensures Run(cfg, history).table[rid].outbox == []
  {
    hide Run, StreamHolds, BatchesHold, WorkersHold, InvocationsHold, CallsHold, Coupled, Gated, Budgeted, Audited;
    RunHolds(cfg, history);
    assert Boxed(Run(cfg, history).table[rid]);
  }

  /** What a pass leaves of a stuck remediation: as it was without a worker, timed out once its budget is spent, and
      otherwise with one more job, under an id of its own, to be sent at once. */
  predicate MetFate(cfg: Config, before: Record, after: Record, hasWorker: bool, now: Time) {
    if !hasWorker then after == before
    else if Redispatches(before.outbox) >= cfg.maxRedispatches then WentTo(before, after, DispatchExhausted, TimedOut)
    else JobAdded(before, after, Redispatch, now)
  }

  predicate JobAdded(before: Record, after: Record, reason: Reason, now: Time) {
    && after.rem == before.rem && after.request == before.request && before.rem.queuedAt.Some?
    && after.trail == before.trail + [Entry(Redispatched, before.rem.status)]
    && var id := Id(before.rem.key, before.rem.queuedAt.value, Some((reason, |before.outbox| + 1)));
       after.outbox == before.outbox + [Dispatch(id, reason, Pending, now, None, 0, now)] && !HasId(before.outbox, id)
  }

  lemma JobIsAdded(cfg: Config, r: Record, reason: Reason, now: Time)
    requires Inv(cfg, r) && Dispatchable(r.rem.status) && reason != DispatchIds.Execute
    ensures JobAdded(r, SendAgain(r, reason, now), reason, now)
  {
    hide Coupled, Gated, Budgeted, Audited, HasId;
    NextIdIsFresh(r, reason);
  }

  lemma JobIsAddedInRun(cfg: Config, history: seq<Step>, rid: RemId, reason: Reason, now: Time)
    requires rid in Run(cfg, history).table && Dispatchable(Run(cfg, history).table[rid].rem.status)
    requires reason != DispatchIds.Execute
    ensures JobAdded(Run(cfg, history).table[rid], SendAgain(Run(cfg, history).table[rid], reason, now), reason, now)
  {
    hide Run, JobAdded, Inv;
    RunHolds(cfg, history);
    JobIsAdded(cfg, Run(cfg, history).table[rid], reason, now);
  }

  lemma FateInRun(cfg: Config, history: seq<Step>, rid: RemId, hasWorker: bool, now: Time)
    requires rid in Run(cfg, history).table && Stuck(cfg, Run(cfg, history).table[rid], now)
    ensures var r := Run(cfg, history).table[rid];
            MetFate(cfg, r, Reconcile(cfg, r, hasWorker, now), hasWorker, now)
  {
    hide Run, MetFate, Stuck, Inv;
    RunHolds(cfg, history);
    FateMeans(cfg, Run(cfg, history).table[rid], hasWorker, now);
  }

  lemma FateMeans(cfg: Config, r: Record, hasWorker: bool, now: Time)
    requires Inv(cfg, r) && Stuck(cfg, r, now)
    ensures MetFate(cfg, r, Reconcile(cfg, r, hasWorker, now), hasWorker, now)
  {
    hide Redispatches, Coupled, Gated, Budgeted, Audited, HasId;
    if hasWorker && Redispatches(r.outbox) < cfg.maxRedispatches { JobIsAdded(cfg, r, Redispatch, now); }
  }

  /** The row got this status and one audit entry, and kept its request, its jobs and what was asked for. */
  predicate WentTo(before: Record, after: Record, deed: Deed, status: Status) {
    && after.rem.status == status && after.trail == before.trail + [Entry(deed, status)]
    && after.request == before.request && after.outbox == before.outbox && SameRequestedWork(before.rem, after.rem)
    && after.rem.dryRun == before.rem.dryRun && after.rem.queuedAt == before.rem.queuedAt
  }

  predicate EndedAs(before: Record, after: Record, ending: Ending) {
    match ending
    case Done => WentTo(before, after, Completed, Succeeded)
    case Broke => WentTo(before, after, JobFailed, Failed)
    case Invalid => WentTo(before, after, ValidationFailed, Failed)
    case Late => WentTo(before, after, JobTimedOut, TimedOut)
    case Exhausted => WentTo(before, after, DispatchExhausted, TimedOut)
  }

  /** How work that ran is left. */
  predicate CameOut(before: Record, after: Record, handled: Handled) {
    match handled
    case Result => WentTo(before, after, Completed, Succeeded)
    case Error => WentTo(before, after, JobFailed, Failed)
    case Deadline => WentTo(before, after, JobTimedOut, TimedOut)
    case Retry => WentTo(before, after, RetryScheduled, Running)
  }

  /** How a row is left whose job was not run: refused for good, or noted as stale. */
  predicate NotRun(cfg: Config, before: Record, after: Record) {
    if Dispatchable(before.rem.status) then
      WentTo(before, after, if before.rem.action in cfg.handlers then ValidationFailed else JobFailed, Failed)
    else if before.rem.status == Succeeded then after == before
    else WentTo(before, after, ExecutionSkipped, before.rem.status)
  }

  lemma ConcludedMeans(r: Record, handled: Handled)
    ensures r.rem.status == Running ==> CameOut(r, Concluded(r, handled), handled)
  {
  }

  lemma HandleMeans(cfg: Config, r: Record, handled: Handled, now: Time)
    ensures var after := Handle(cfg, r, handled, now);
            if Dispatchable(r.rem.status) && Runnable(cfg, r.rem) then
              && CameOut(r, after, handled)
              && after.rem.startedAt == if r.rem.startedAt.Some? then r.rem.startedAt else Some(now)
            else NotRun(cfg, r, after)
  {
    hide Runnable;
  }

  /** What becomes of a stuck remediation in a pass: without a live worker it waits, and with one it is given up on
      or sent again, as its budget says. */
  function FateOf(cfg: Config, r: Record, hasWorker: bool): Fate {
    if !hasWorker then Waits else if Redispatches(r.outbox) >= cfg.maxRedispatches then GivenUp else SentAgain
  }

  lemma BatchSize(s: System, rows: seq<(RemId, nat)>, now: Time)
    requires forall i :: 0 <= i < |rows| ==> Selectable(s, rows[i], now)
    ensures |Batch(s, rows, now)| == |rows|
  {
  }

  /** A row of the batch got the outcome its remediation's status and its publish call for. */
  predicate HandledAs(handled: (Item, Outcome), item: Item, ack: Ack, now: Time) {
    && handled.0 == item
    && handled.1 == if !Dispatchable(item.seen) then Skip else if ack.Acknowledged? then Sent(now) else NotSent(now)
  }

  /** A batch partly worked off: every row so far handled, in order, and either the rest still to do or the last
      publish failed. */
  predicate PartOf(batch: seq<Item>, acks: seq<Ack>, now: Time, done: seq<(Item, Outcome)>, todo: seq<Item>) {
    && |done| <= |batch| == |acks|
    && (forall i :: 0 <= i < |done| ==> HandledAs(done[i], batch[i], acks[i], now))
    && (if |todo| > 0 then todo == batch[|done|..] else |done| == |batch| || (|done| > 0 && done[|done| - 1].1.NotSent?))
  }

  lemma NotPast(batch: seq<Item>, acks: seq<Ack>, now: Time, done: seq<(Item, Outcome)>, todo: seq<Item>)
    requires PartOf(batch, acks, now, done, todo) && |todo| > 0
    ensures |done| < |acks| && todo[0] == batch[|done|]
  {
  }

  lemma OneMoreHandled(
    batch: seq<Item>, acks: seq<Ack>, now: Time, done: seq<(Item, Outcome)>, todo: seq<Item>, outcome: Outcome)
    requires PartOf(batch, acks, now, done, todo) && |todo| > 0 && |done| < |acks|
    requires HandledAs((todo[0], outcome), todo[0], acks[|done|], now)
    ensures PartOf(batch, acks, now, done + [(todo[0], outcome)], if outcome.NotSent? then [] else todo[1..])
    ensures CountSent(done + [(todo[0], outcome)]) == CountSent(done) + if outcome.Sent? then 1 else 0
  {
    hide HandledAs;
    var after := done + [(todo[0], outcome)];
    assert after[..|done|] == done;
    assert todo[1..] == batch[|after|..];
    forall i | 0 <= i < |after| ensures HandledAs(after[i], batch[i], acks[i], now) {
      assert i < |done| ==> after[i] == done[i];
    }
  }

  lemma SetTwice(m: map<nat, Dispatcher>, d: nat, a: Dispatcher, b: Dispatcher)
    ensures m[d := a][d := b] == m[d := b]
  {
  }

  function CountSent(done: seq<(Item, Outcome)>): nat {
    if |done| == 0 then 0 else CountSent(done[..|done| - 1]) + if done[|done| - 1].1.Sent? then 1 else 0
  }
}
