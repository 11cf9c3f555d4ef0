/** The remediation execution protocol as one state machine.

    API replicas, approvers, dispatchers, the reconciler and workers take steps in any order. A dispatcher publishes
    inside a transaction that may still be lost, a worker may stop between any two of its steps, a message may be
    delivered any number of times, and a handler's effect may land long after its worker gave up on it. */
module Protocol {
  import opened Catalog
  import opened RemediationStates
  import opened DispatchIds
  import opened Records
  import Policy
  import ControlState

  type RemId = nat
  type Table = map<RemId, Record>

  datatype Message = Message(id: Id, rid: RemId, storedAt: Time)

  /** A batch row: which dispatch, and the remediation status read when the batch was selected. */
  datatype Item = Item(rid: RemId, id: Id, seen: Status)
  datatype Dispatcher = Dispatcher(todo: seq<Item>, done: seq<(Item, Outcome)>)

  /** Where a worker stands with one message. The snapshot is the row it read, which may be stale by now. */
  datatype Worker =
    | Idle
    | Delivered(rid: RemId)
    | Checked(rid: RemId, snap: Remediation)
    | Claimed(rid: RemId, snap: Remediation)
    | Invoked(rid: RemId, snap: Remediation)

  datatype Invocation = Invocation(rid: RemId, snap: Remediation)

  /** `wantsApproval` are the remediations some API replica created as, or read as, awaiting approval: it may open
      the approval request at any later time. `calls` is the history of control-state calls. */
  datatype System = System(
    table: Table, wantsApproval: set<RemId>, clock: Time, stream: seq<Message>,
    dispatchers: map<nat, Dispatcher>, workers: map<nat, Worker>,
    invocations: seq<Invocation>, calls: seq<ControlState.Call>)

  const INITIAL := System(map[], {}, 0, [], map[], map[], [], [])

  /** What became of a publish: acknowledged, stored with its acknowledgement lost, or lost. */
  datatype Ack = Acknowledged | AckLost | Lost

  datatype Step =
    // API replicas, approvers, the approval controller and the reconciler
    | Create(rid: RemId, input: Policy.Input, proposer: string, key: string)
    | SeeAwaiting(rid: RemId)
    | OpenRequest(rid: RemId, now: Time)
    | OnRecord(rid: RemId, tx: Transaction)
    // dispatchers and JetStream
    | Select(d: nat, rows: seq<(RemId, nat)>, now: Time)
    | Publish(d: nat, ack: Ack, now: Time)
    | Commit(d: nat)
    | Rollback(d: nat)
    | Tick(to: Time)
    // workers and their handlers
    | Deliver(w: nat, message: nat)
    | Check(w: nat)
    | Reject(w: nat)
    | ClaimJob(w: nat, now: Time)
    | Invoke(w: nat)
    | Effect(invocation: nat)
    | FinishJob(w: nat, ending: Ending)
    | Abandon(w: nat)

  predicate KeyTaken(t: Table, key: string) { exists r :: r in t && t[r].rem.key == key }

  function WithRecord(s: System, rid: RemId, r: Record): System { s.(table := s.table[rid := r]) }

  /** The replica that creates work awaiting approval goes on to open its request. */
  function Insert(s: System, rid: RemId, r: Record): System {
    var want: set<RemId> := if r.rem.status == AwaitingApproval then {rid} else {};
    WithRecord(s, rid, r).(wantsApproval := s.wantsApproval + want)
  }

  // ----- Dispatchers -----

  predicate Locked(s: System, id: Id) {
    exists d :: d in s.dispatchers && HoldsId(s.dispatchers[d], id)
  }

  predicate HoldsId(d: Dispatcher, id: Id) {
    || (exists i :: 0 <= i < |d.todo| && d.todo[i].id == id)
    || (exists i :: 0 <= i < |d.done| && d.done[i].0.id == id)
  }

  /** A row the batch query may return: pending, due and not locked by another dispatcher. */
  predicate Selectable(s: System, row: (RemId, nat), now: Time) {
    row.0 in s.table && row.1 < |s.table[row.0].outbox| &&
    var d := s.table[row.0].outbox[row.1];
    d.state == Pending && d.nextAttemptAt <= now && !Locked(s, d.id)
  }

  predicate DistinctRows(rows: seq<(RemId, nat)>) { forall i, j :: 0 <= i < j < |rows| ==> rows[i] != rows[j] }

  function ItemOf(s: System, row: (RemId, nat), now: Time): Item
    requires Selectable(s, row, now)
  {
    Item(row.0, s.table[row.0].outbox[row.1].id, s.table[row.0].rem.status)
  }

  function Batch(s: System, rows: seq<(RemId, nat)>, now: Time): seq<Item>
    requires forall i :: 0 <= i < |rows| ==> Selectable(s, rows[i], now)
  {
    seq(|rows|, i requires 0 <= i < |rows| && Selectable(s, rows[i], now) => ItemOf(s, rows[i], now))
  }

  /** JetStream stores a message unless it still remembers its id. */
  predicate Remembered(cfg: Config, s: System, id: Id) {
    exists i :: 0 <= i < |s.stream| && s.stream[i].id == id && s.clock < s.stream[i].storedAt + cfg.duplicateWindow
  }

  function Stored(cfg: Config, s: System, id: Id, rid: RemId): seq<Message> {
    if Remembered(cfg, s, id) then s.stream else s.stream + [Message(id, rid, s.clock)]
  }

  /** The first row of a batch. A publish that was not acknowledged ends the batch. */
  function PublishOne(cfg: Config, s: System, d: nat, ack: Ack, now: Time): System {
    if d !in s.dispatchers || |s.dispatchers[d].todo| == 0 then s
    else
      var b := s.dispatchers[d];
      var item := b.todo[0];
      if !Dispatchable(item.seen) then
        s.(dispatchers := s.dispatchers[d := Dispatcher(b.todo[1..], b.done + [(item, Skip)])])
      else
        var after := if ack.Acknowledged? then Dispatcher(b.todo[1..], b.done + [(item, Sent(now))])
                     else Dispatcher([], b.done + [(item, NotSent(now))]);
        s.(stream := if ack.Lost? then s.stream else Stored(cfg, s, item.id, item.rid),
           dispatchers := s.dispatchers[d := after])
  }

  function MarkRow(t: Table, item: Item, o: Outcome): Table {
    if item.rid in t then t[item.rid := Mark(t[item.rid], item.id, o)] else t
  }

  function MarkRows(t: Table, done: seq<(Item, Outcome)>): Table {
    if |done| == 0 then t
    else MarkRow(MarkRows(t, done[..|done| - 1]), done[|done| - 1].0, done[|done| - 1].1)
  }

  // ----- Workers -----

  function WithWorker(s: System, w: nat, pc: Worker): System { s.(workers := s.workers[w := pc]) }

  function PC(s: System, w: nat): Worker { if w in s.workers then s.workers[w] else Idle }

  /** Does a registered handler exist, and does it accept the row it was given? */
  predicate Runnable(cfg: Config, snap: Remediation) {
    && snap.action in cfg.handlers
    && (ControlState.Typed(snap.action) ==> snap.key != "")
    && Validate(snap.action, snap.target, snap.parameters)
  }

  function TakeMessage(s: System, w: nat, m: nat): System {
    if m < |s.stream| && PC(s, w).Idle? then WithWorker(s, w, Delivered(s.stream[m].rid)) else s
  }

  function CheckMessage(s: System, w: nat): System {
    if !PC(s, w).Delivered? then s
    else
      var rid := PC(s, w).rid;
      if rid !in s.table || !Dispatchable(s.table[rid].rem.status) then WithWorker(s, w, Idle)
      else WithWorker(s, w, Checked(rid, s.table[rid].rem))
  }

  function EndJob(s: System, w: nat, rid: RemId, ending: Ending): System
    requires rid in s.table
  {
    WithWorker(WithRecord(s, rid, Finish(s.table[rid], ending)), w, Idle)
  }

  /** No handler, or one that refuses the row: the job fails without running. */
  function RejectJob(cfg: Config, s: System, w: nat): System {
    var pc := PC(s, w);
    if !pc.Checked? || pc.rid !in s.table || Runnable(cfg, pc.snap) then s
    else EndJob(s, w, pc.rid, if pc.snap.action in cfg.handlers then Invalid else Broke)
  }

  function TryClaim(cfg: Config, s: System, w: nat, now: Time): System {
    var pc := PC(s, w);
    if !pc.Checked? || !Runnable(cfg, pc.snap) then s
    else if pc.rid in s.table && Dispatchable(s.table[pc.rid].rem.status) then
      WithWorker(WithRecord(s, pc.rid, Claim(s.table[pc.rid], now)), w, Claimed(pc.rid, pc.snap))
    else WithWorker(s, w, Idle)
  }

  function HandlerRequest(snap: Remediation): ControlState.Request {
    ControlState.Request(snap.action, snap.target, snap.parameters, snap.key)
  }

  /** An executed typed handler makes its one control-state call; a dry run only previews. */
  predicate HasEffect(snap: Remediation) {
    !snap.dryRun && ControlState.Typed(snap.action) && ControlState.ValidRequest(HandlerRequest(snap))
  }

  function CallOf(snap: Remediation): ControlState.Call
    requires HasEffect(snap)
  {
    ControlState.HandlerCall(HandlerRequest(snap))
  }

  // ----- One step -----

  function CreateRow(cfg: Config, s: System, rid: RemId, input: Policy.Input, proposer: string, key: string): System {
    if rid in s.table || KeyTaken(s.table, key) then s else Insert(s, rid, Propose(cfg, input, proposer, key))
  }

  function NoticeAwaiting(s: System, rid: RemId): System {
    if rid in s.table && s.table[rid].rem.status == AwaitingApproval
    then s.(wantsApproval := s.wantsApproval + {rid}) else s
  }

  function TransactOn(cfg: Config, s: System, rid: RemId, tx: Transaction): System {
    if rid in s.table then WithRecord(s, rid, Transact(cfg, s.table[rid], tx)) else s
  }

  function OpenFor(cfg: Config, s: System, rid: RemId, now: Time): System {
    if rid in s.table && rid in s.wantsApproval then WithRecord(s, rid, RequestApproval(cfg, s.table[rid], now)) else s
  }

  function SelectBatch(s: System, d: nat, rows: seq<(RemId, nat)>, now: Time): System {
    if d !in s.dispatchers && DistinctRows(rows) && forall i :: 0 <= i < |rows| ==> Selectable(s, rows[i], now)
    then s.(dispatchers := s.dispatchers[d := Dispatcher(Batch(s, rows, now), [])]) else s
  }

  function CommitBatch(s: System, d: nat): System {
    if d !in s.dispatchers || |s.dispatchers[d].todo| > 0 then s
    else ForgetBatch(s.(table := MarkRows(s.table, s.dispatchers[d].done)), d)
  }

  function ForgetBatch(s: System, d: nat): System { s.(dispatchers := s.dispatchers - {d}) }

  function TickTo(s: System, to: Time): System { if to > s.clock then s.(clock := to) else s }

  function InvokeHandler(s: System, w: nat): System {
    var pc := PC(s, w);
    if !pc.Claimed? then s
    else WithWorker(s, w, Invoked(pc.rid, pc.snap)).(invocations := s.invocations + [Invocation(pc.rid, pc.snap)])
  }

  function ApplyEffect(s: System, n: nat): System {
    if n < |s.invocations| && HasEffect(s.invocations[n].snap)
    then s.(calls := s.calls + [CallOf(s.invocations[n].snap)]) else s
  }

  function FinishHandled(s: System, w: nat, ending: Ending): System {
    var pc := PC(s, w);
    if pc.Invoked? && pc.rid in s.table && ending in {Done, Broke, Late} then EndJob(s, w, pc.rid, ending) else s
  }

  function DispatcherNext(cfg: Config, s: System, step: Step): System {
    match step
    case Select(d, rows, now) => SelectBatch(s, d, rows, now)
    case Publish(d, ack, now) => PublishOne(cfg, s, d, ack, now)
    case Commit(d) => CommitBatch(s, d)
    case Rollback(d) => ForgetBatch(s, d)
    case Tick(to) => TickTo(s, to)
    case _ => s
  }

  function WorkerNext(cfg: Config, s: System, step: Step): System {
    match step
    case Deliver(w, m) => TakeMessage(s, w, m)
    case Check(w) => CheckMessage(s, w)
    case Reject(w) => RejectJob(cfg, s, w)
    case ClaimJob(w, now) => TryClaim(cfg, s, w, now)
    case Invoke(w) => InvokeHandler(s, w)
    case Effect(n) => ApplyEffect(s, n)
    case FinishJob(w, ending) => FinishHandled(s, w, ending)
    case Abandon(w) => WithWorker(s, w, Idle)
    case _ => s
  }

  predicate OfDispatcher(step: Step) {
    step.Select? || step.Publish? || step.Commit? || step.Rollback? || step.Tick?
  }

  predicate OfWorker(step: Step) {
    step.Deliver? || step.Check? || step.Reject? || step.ClaimJob? || step.Invoke? || step.Effect? || step.FinishJob?
    || step.Abandon?
  }

  function Next(cfg: Config, s: System, step: Step): System {
    if OfDispatcher(step) then DispatcherNext(cfg, s, step)
    else if OfWorker(step) then WorkerNext(cfg, s, step)
    else
      match step
      case Create(rid, input, proposer, key) => CreateRow(cfg, s, rid, input, proposer, key)
      case SeeAwaiting(rid) => NoticeAwaiting(s, rid)
      case OpenRequest(rid, now) => OpenFor(cfg, s, rid, now)
      case OnRecord(rid, tx) => TransactOn(cfg, s, rid, tx)
      case _ => s
  }

  /** The state after any sequence of steps; a step whose guard is false changes nothing. */
  function Run(cfg: Config, steps: seq<Step>): System {
    if |steps| == 0 then INITIAL else Next(cfg, Run(cfg, steps[..|steps| - 1]), steps[|steps| - 1])
  }

  function StateAt(cfg: Config, steps: seq<Step>, n: nat): System
    requires n <= |steps|
  {
    Run(cfg, steps[..n])
  }
}
