/** The invariant of the whole protocol and its preservation by every step. */
module ProtocolInvariants {
  import opened RemediationStates
  import opened DispatchIds
  import opened Records
  import opened RecordInvariants
  import opened Protocol
  import ControlState
  import Policy

  // ----- The invariant -----

  ghost predicate RecordsHold(cfg: Config, t: Table) { forall rid :: rid in t ==> Inv(cfg, t[rid]) }

  /** idempotency_key is a unique column. */
  predicate KeysDiffer(t: Table) {
    forall a, b :: a in t && b in t && a != b ==> t[a].rem.key != t[b].rem.key
  }

  predicate WantsHold(s: System) {
    forall rid :: rid in s.wantsApproval ==>
      rid in s.table && s.table[rid].rem.allowed && s.table[rid].rem.requiresApproval
  }

  predicate MessageHolds(s: System, m: Message) {
    m.rid in s.table && HasId(s.table[m.rid].outbox, m.id) && m.storedAt <= s.clock
  }

  /** Two stored messages with one id lie at least a duplicate window apart. */
  predicate Spaced(cfg: Config, stream: seq<Message>) {
    forall i, j :: 0 <= i < j < |stream| && stream[i].id == stream[j].id ==>
      stream[i].storedAt + cfg.duplicateWindow <= stream[j].storedAt
  }

  predicate StreamHolds(cfg: Config, s: System) {
    Spaced(cfg, s.stream) && forall i :: 0 <= i < |s.stream| ==> MessageHolds(s, s.stream[i])
  }

  /** A status that was not dispatchable when it was read was terminal, so it still is. */
  predicate ItemHolds(t: Table, item: Item) {
    && item.rid in t && HasId(t[item.rid].outbox, item.id)
    && (!Dispatchable(item.seen) ==> IsTerminal(t[item.rid].rem.status))
  }

  predicate BatchHolds(t: Table, d: Dispatcher) {
    && (forall i :: 0 <= i < |d.todo| ==> ItemHolds(t, d.todo[i]))
    && (forall i :: 0 <= i < |d.done| ==> ItemHolds(t, d.done[i].0))
    && (forall i :: 0 <= i < |d.done| && d.done[i].1.Skip? ==> IsTerminal(t[d.done[i].0.rid].rem.status))
  }

  predicate BatchesHold(s: System) { forall d :: d in s.dispatchers ==> BatchHolds(s.table, s.dispatchers[d]) }

  /** Nothing a handler uses can change once the work is reserved. */
  predicate Current(t: Table, rid: RemId, snap: Remediation) {
    && rid in t && SameRequestedWork(snap, t[rid].rem)
    && snap.dryRun == t[rid].rem.dryRun && snap.queuedAt == t[rid].rem.queuedAt && snap.queuedAt.Some?
    && (Dispatchable(t[rid].rem.status) || IsTerminal(t[rid].rem.status))
  }

  predicate Started(s: Status) { s in {Running, Succeeded, Failed, TimedOut} }

  predicate WorkerHolds(cfg: Config, t: Table, pc: Worker) {
    match pc
    case Idle => true
    case Delivered(_) => true
    case Checked(rid, snap) => Current(t, rid, snap)
    case Claimed(rid, snap) => Current(t, rid, snap) && Started(t[rid].rem.status) && Runnable(cfg, snap)
    case Invoked(rid, snap) => Current(t, rid, snap) && Started(t[rid].rem.status) && Runnable(cfg, snap)
  }

  predicate WorkersHold(cfg: Config, s: System) {
    forall w :: w in s.workers ==> WorkerHolds(cfg, s.table, s.workers[w])
  }

  predicate InvocationHolds(cfg: Config, t: Table, v: Invocation) {
    Current(t, v.rid, v.snap) && Started(t[v.rid].rem.status) && Runnable(cfg, v.snap)
  }

  predicate InvocationsHold(cfg: Config, s: System) {
    forall i :: 0 <= i < |s.invocations| ==> InvocationHolds(cfg, s.table, s.invocations[i])
  }

  predicate CallHolds(invocations: seq<Invocation>, c: ControlState.Call) {
    exists i :: 0 <= i < |invocations| && HasEffect(invocations[i].snap) &&
                c == CallOf(invocations[i].snap)
  }

  predicate CallsHold(s: System) {
    forall i :: 0 <= i < |s.calls| ==> CallHolds(s.invocations, s.calls[i])
  }

  ghost predicate SystemInv(cfg: Config, s: System) {
    && RecordsHold(cfg, s.table) && KeysDiffer(s.table) && WantsHold(s) && StreamHolds(cfg, s)
    && BatchesHold(s) && WorkersHold(cfg, s) && InvocationsHold(cfg, s) && CallsHold(s)
  }

  // ----- Framing: what a legal table change cannot disturb -----

  predicate TableEvolves(t: Table, u: Table) {
    forall rid :: rid in t ==> rid in u && Evolves(t[rid], u[rid])
  }

  lemma GrowsKeepsId(o: seq<Dispatch>, p: seq<Dispatch>, id: Id)
    requires Grows(o, p) && HasId(o, id)
    ensures HasId(p, id)
  {
    var i :| 0 <= i < |o| && o[i].id == id;
    assert SameRow(o[i], p[i]);
  }

  lemma CurrentEvolves(t: Table, u: Table, rid: RemId, snap: Remediation)
    requires TableEvolves(t, u) && Current(t, rid, snap)
    ensures Current(u, rid, snap) && (Started(t[rid].rem.status) ==> Started(u[rid].rem.status))
  {
  }

  lemma ItemEvolves(t: Table, u: Table, item: Item)
    requires TableEvolves(t, u) && ItemHolds(t, item)
    ensures ItemHolds(u, item)
  {
    GrowsKeepsId(t[item.rid].outbox, u[item.rid].outbox, item.id);
  }

  lemma BatchEvolves(t: Table, u: Table, d: Dispatcher)
    requires TableEvolves(t, u) && BatchHolds(t, d)
    ensures BatchHolds(u, d)
  {
    forall i | 0 <= i < |d.todo| ensures ItemHolds(u, d.todo[i]) { ItemEvolves(t, u, d.todo[i]); }
    forall i | 0 <= i < |d.done| ensures ItemHolds(u, d.done[i].0) { ItemEvolves(t, u, d.done[i].0); }
  }

  lemma WorkerEvolves(cfg: Config, t: Table, u: Table, pc: Worker)
    requires TableEvolves(t, u) && WorkerHolds(cfg, t, pc)
    ensures WorkerHolds(cfg, u, pc)
  {
    if pc.Checked? || pc.Claimed? || pc.Invoked? { CurrentEvolves(t, u, pc.rid, pc.snap); }
  }

  lemma MessageEvolves(s: System, s': System, m: Message)
    requires TableEvolves(s.table, s'.table) && s.clock <= s'.clock && MessageHolds(s, m)
    ensures MessageHolds(s', m)
  {
    GrowsKeepsId(s.table[m.rid].outbox, s'.table[m.rid].outbox, m.id);
  }

  /** Everything outside the table keeps holding while the table evolves. */
  lemma Frame(cfg: Config, s: System, u: Table)
    requires SystemInv(cfg, s) && TableEvolves(s.table, u) && RecordsHold(cfg, u) && KeysDiffer(u)
    ensures SystemInv(cfg, s.(table := u))
  {
    var s' := s.(table := u);
    forall i | 0 <= i < |s.stream| ensures MessageHolds(s', s.stream[i]) { MessageEvolves(s, s', s.stream[i]); }
    forall d | d in s.dispatchers ensures BatchHolds(u, s.dispatchers[d]) { BatchEvolves(s.table, u, s.dispatchers[d]); }
    forall w | w in s.workers ensures WorkerHolds(cfg, u, s.workers[w]) { WorkerEvolves(cfg, s.table, u, s.workers[w]); }
    forall i | 0 <= i < |s.invocations| ensures InvocationHolds(cfg, u, s.invocations[i]) {
      CurrentEvolves(s.table, u, s.invocations[i].rid, s.invocations[i].snap);
    }
  }

  lemma RecordChange(cfg: Config, s: System, rid: RemId, r: Record)
    requires SystemInv(cfg, s) && rid in s.table && Inv(cfg, r) && Evolves(s.table[rid], r)
    ensures SystemInv(cfg, WithRecord(s, rid, r)) && TableEvolves(s.table, WithRecord(s, rid, r).table)
  {
    hide Inv, StreamHolds, BatchesHold, WorkersHold, InvocationsHold, CallsHold;
    var u := s.table[rid := r];
    forall x | x in s.table ensures x in u && Evolves(s.table[x], u[x]) {
      if x != rid { SelfEvolves(s.table[x]); }
    }
    Frame(cfg, s, u);
  }

  lemma WorkerChange(cfg: Config, s: System, w: nat, pc: Worker)
    requires SystemInv(cfg, s) && WorkerHolds(cfg, s.table, pc)
    ensures SystemInv(cfg, WithWorker(s, w, pc))
  {
  }

  // ----- Preservation -----

  ghost predicate Good(cfg: Config, s: System, s': System) {
    SystemInv(cfg, s') && TableEvolves(s.table, s'.table)
  }

  lemma SameTableEvolves(t: Table)
    ensures TableEvolves(t, t)
  {
    forall rid | rid in t ensures Evolves(t[rid], t[rid]) { SelfEvolves(t[rid]); }
  }

  lemma InsertKeeps(cfg: Config, s: System, rid: RemId, r: Record)
    requires SystemInv(cfg, s) && rid !in s.table && !KeyTaken(s.table, r.rem.key) && Inv(cfg, r)
    ensures Good(cfg, s, Insert(s, rid, r))
  {
    hide Gated, Boxed, Budgeted, Audited, Evolves, Runnable, HasEffect, CallOf, Current, ItemHolds;
    SameTableEvolves(s.table);
    Frame(cfg, s, s.table[rid := r]);
  }

  /** Only outbox rows changed, and none in identity. */
  predicate OnlyMarks(t: Table, u: Table) {
    && u.Keys == t.Keys
    && forall rid :: rid in t ==>
         && u[rid].rem == t[rid].rem && u[rid].request == t[rid].request && u[rid].trail == t[rid].trail
         && Grows(t[rid].outbox, u[rid].outbox)
  }

  lemma MarkRowKeeps(cfg: Config, t: Table, item: Item, o: Outcome)
    requires RecordsHold(cfg, t) && (o.Skip? && item.rid in t ==> IsTerminal(t[item.rid].rem.status))
    ensures RecordsHold(cfg, MarkRow(t, item, o)) && OnlyMarks(t, MarkRow(t, item, o))
  {
    hide Inv;
    if item.rid in t { MarkKeeps(cfg, t[item.rid], item.id, o); }
  }

  lemma GrowsTransitive(o: seq<Dispatch>, p: seq<Dispatch>, q: seq<Dispatch>)
    requires Grows(o, p) && Grows(p, q)
    ensures Grows(o, q)
  {
    forall i | 0 <= i < |o| ensures SameRow(o[i], q[i]) { assert SameRow(o[i], p[i]) && SameRow(p[i], q[i]); }
  }

  lemma SelfMarks(t: Table)
    ensures OnlyMarks(t, t)
  {
  }

  lemma {:induction false} MarkRowsKeeps(cfg: Config, t: Table, done: seq<(Item, Outcome)>)
    requires RecordsHold(cfg, t)
    requires forall i :: 0 <= i < |done| && done[i].1.Skip? && done[i].0.rid in t ==> IsTerminal(t[done[i].0.rid].rem.status)
    ensures RecordsHold(cfg, MarkRows(t, done)) && OnlyMarks(t, MarkRows(t, done))
  {
    hide RecordsHold, MarkRow, Grows;
    if |done| == 0 {
      SelfMarks(t);
    } else {
      var n := |done| - 1;
      MarkRowsKeeps(cfg, t, done[..n]);
      var mid := MarkRows(t, done[..n]);
      MarkRowKeeps(cfg, mid, done[n].0, done[n].1);
      forall rid | rid in t ensures Grows(t[rid].outbox, MarkRows(t, done)[rid].outbox) {
        GrowsTransitive(t[rid].outbox, mid[rid].outbox, MarkRows(t, done)[rid].outbox);
      }
    }
  }

  lemma SelectKeeps(cfg: Config, s: System, d: nat, rows: seq<(RemId, nat)>, now: Time)
    requires SystemInv(cfg, s)
    ensures Good(cfg, s, SelectBatch(s, d, rows, now))
  {
    hide Inv, Evolves, Runnable, HasEffect, CallOf, Current, ItemHolds, ItemOf;
    SameTableEvolves(s.table);
    if d !in s.dispatchers && forall i :: 0 <= i < |rows| ==> Selectable(s, rows[i], now) {
      forall i | 0 <= i < |rows| ensures ItemHolds(s.table, ItemOf(s, rows[i], now)) {
        SelectedItemHolds(cfg, s, rows[i], now);
      }
      assert BatchHolds(s.table, Dispatcher(Batch(s, rows, now), []));
    }
  }

  lemma SelectedItemHolds(cfg: Config, s: System, row: (RemId, nat), now: Time)
    requires RecordsHold(cfg, s.table) && Selectable(s, row, now)
    ensures ItemHolds(s.table, ItemOf(s, row, now))
  {
    hide Gated, Budgeted, Audited, Locked;
    var r := s.table[row.0];
    assert Boxed(r);
    assert r.outbox[row.1].id == ItemOf(s, row, now).id;
  }

  lemma SetBatch(cfg: Config, s: System, d: nat, b: Dispatcher)
    requires SystemInv(cfg, s) && BatchHolds(s.table, b)
    ensures SystemInv(cfg, s.(dispatchers := s.dispatchers[d := b]))
  {
  }

  lemma StoreMessage(cfg: Config, s: System, item: Item)
    requires SystemInv(cfg, s) && ItemHolds(s.table, item)
    ensures SystemInv(cfg, s.(stream := Stored(cfg, s, item.id, item.rid)))
  {
    StoredKeeps(cfg, s, item.id, item.rid);
  }

  lemma PublishKeeps(cfg: Config, s: System, d: nat, ack: Ack, now: Time)
    requires SystemInv(cfg, s)
    ensures Good(cfg, s, PublishOne(cfg, s, d, ack, now))
  {
    SameTableEvolves(s.table);
    if d in s.dispatchers && |s.dispatchers[d].todo| > 0 {
      assert BatchHolds(s.table, s.dispatchers[d]);
      PublishFirst(cfg, s, d, ack, now);
    }
  }

  lemma PublishFirst(cfg: Config, s: System, d: nat, ack: Ack, now: Time)
    requires SystemInv(cfg, s) && d in s.dispatchers && |s.dispatchers[d].todo| > 0 && BatchHolds(s.table, s.dispatchers[d])
    ensures SystemInv(cfg, PublishOne(cfg, s, d, ack, now)) && PublishOne(cfg, s, d, ack, now).table == s.table
  {
    hide SystemInv, Stored, ItemHolds;
    var b := s.dispatchers[d];
    var item := b.todo[0];
    if !Dispatchable(item.seen) {
      DoneHolds(s.table, b, Skip);
      SetBatch(cfg, s, d, Dispatcher(b.todo[1..], b.done + [(item, Skip)]));
    } else {
      StoreMessage(cfg, s, item);
      var stored := if ack.Lost? then s else s.(stream := Stored(cfg, s, item.id, item.rid));
      DoneHolds(s.table, b, Sent(now));
      DoneHolds(s.table, b, NotSent(now));
      SetBatch(cfg, stored, d, Dispatcher(b.todo[1..], b.done + [(item, Sent(now))]));
      SetBatch(cfg, stored, d, Dispatcher([], b.done + [(item, NotSent(now))]));
    }
  }

  lemma DoneHolds(t: Table, b: Dispatcher, o: Outcome)
    requires BatchHolds(t, b) && |b.todo| > 0 && (o.Skip? ==> !Dispatchable(b.todo[0].seen))
    ensures BatchHolds(t, Dispatcher(b.todo[1..], b.done + [(b.todo[0], o)]))
    ensures BatchHolds(t, Dispatcher([], b.done + [(b.todo[0], o)]))
  {
    assert ItemHolds(t, b.todo[0]);
  }

  lemma StoredKeeps(cfg: Config, s: System, id: Id, rid: RemId)
    requires StreamHolds(cfg, s) && rid in s.table && HasId(s.table[rid].outbox, id)
    ensures StreamHolds(cfg, s.(stream := Stored(cfg, s, id, rid)))
  {
    var stream := Stored(cfg, s, id, rid);
    forall i, j | 0 <= i < j < |stream| && stream[i].id == stream[j].id
      ensures stream[i].storedAt + cfg.duplicateWindow <= stream[j].storedAt
    {
      assert stream[i] == s.stream[i];
    }
  }

  lemma CommitKeeps(cfg: Config, s: System, d: nat)
    requires SystemInv(cfg, s)
    ensures Good(cfg, s, CommitBatch(s, d))
  {
    SameTableEvolves(s.table);
    if d in s.dispatchers {
      assert BatchHolds(s.table, s.dispatchers[d]);
      var u := MarkRows(s.table, s.dispatchers[d].done);
      MarkRowsKeeps(cfg, s.table, s.dispatchers[d].done);
      MarksEvolve(s.table, u);
      Frame(cfg, s, u);
      ForgetKeeps(cfg, s.(table := u), d);
    }
  }

  lemma MarksEvolve(t: Table, u: Table)
    requires OnlyMarks(t, u) && KeysDiffer(t)
    ensures TableEvolves(t, u) && KeysDiffer(u)
  {
  }

  lemma ForgetKeeps(cfg: Config, s: System, d: nat)
    requires SystemInv(cfg, s)
    ensures Good(cfg, s, ForgetBatch(s, d))
  {
    SameTableEvolves(s.table);
  }

  lemma TickKeeps(cfg: Config, s: System, to: Time)
    requires SystemInv(cfg, s)
    ensures Good(cfg, s, TickTo(s, to))
  {
    SameTableEvolves(s.table);
    forall i | 0 <= i < |s.stream| ensures MessageHolds(TickTo(s, to), s.stream[i]) {
      MessageEvolves(s, TickTo(s, to), s.stream[i]);
    }
  }

  lemma DispatcherKeeps(cfg: Config, s: System, step: Step)
    requires SystemInv(cfg, s) && OfDispatcher(step)
    ensures Good(cfg, s, DispatcherNext(cfg, s, step))
  {
    hide Good, SystemInv;
    match step
    case Select(d, rows, now) => SelectKeeps(cfg, s, d, rows, now);
    case Publish(d, ack, now) => PublishKeeps(cfg, s, d, ack, now);
    case Commit(d) => CommitKeeps(cfg, s, d);
    case Rollback(d) => ForgetKeeps(cfg, s, d);
    case Tick(to) => TickKeeps(cfg, s, to);
  }

  lemma TakeKeeps(cfg: Config, s: System, w: nat, m: nat)
    requires SystemInv(cfg, s)
    ensures Good(cfg, s, TakeMessage(s, w, m))
  {
    SameTableEvolves(s.table);
    if m < |s.stream| { WorkerChange(cfg, s, w, Delivered(s.stream[m].rid)); }
  }

  lemma CheckKeeps(cfg: Config, s: System, w: nat)
    requires SystemInv(cfg, s)
    ensures Good(cfg, s, CheckMessage(s, w))
  {
    SameTableEvolves(s.table);
    WorkerChange(cfg, s, w, Idle);
    if PC(s, w).Delivered? {
      var rid := PC(s, w).rid;
      if rid in s.table && Dispatchable(s.table[rid].rem.status) {
        assert Boxed(s.table[rid]);
        WorkerChange(cfg, s, w, Checked(rid, s.table[rid].rem));
      }
    }
  }

  lemma RejectKeeps(cfg: Config, s: System, w: nat)
    requires SystemInv(cfg, s)
    ensures Good(cfg, s, RejectJob(cfg, s, w))
  {
    SameTableEvolves(s.table);
    var pc := PC(s, w);
    if pc.Checked? && pc.rid in s.table && !Runnable(cfg, pc.snap) {
      EndJobKeeps(cfg, s, w, pc.rid, if pc.snap.action in cfg.handlers then Invalid else Broke);
    }
  }

  lemma AbandonKeeps(cfg: Config, s: System, w: nat)
    requires SystemInv(cfg, s)
    ensures Good(cfg, s, WithWorker(s, w, Idle))
  {
    SameTableEvolves(s.table);
    WorkerChange(cfg, s, w, Idle);
  }

  lemma EndJobKeeps(cfg: Config, s: System, w: nat, rid: RemId, ending: Ending)
    requires SystemInv(cfg, s) && rid in s.table
    ensures Good(cfg, s, EndJob(s, w, rid, ending))
  {
    FinishKeeps(cfg, s.table[rid], ending);
    RecordChange(cfg, s, rid, Finish(s.table[rid], ending));
    WorkerChange(cfg, WithRecord(s, rid, Finish(s.table[rid], ending)), w, Idle);
  }

  lemma PCHolds(cfg: Config, s: System, w: nat)
    requires WorkersHold(cfg, s)
    ensures WorkerHolds(cfg, s.table, PC(s, w))
  {
  }

  lemma TryClaimKeeps(cfg: Config, s: System, w: nat, now: Time)
    requires SystemInv(cfg, s)
    ensures Good(cfg, s, TryClaim(cfg, s, w, now))
  {
    SameTableEvolves(s.table);
    var pc := PC(s, w);
    PCHolds(cfg, s, w);
    WorkerChange(cfg, s, w, Idle);
    if pc.Checked? && Runnable(cfg, pc.snap) && Dispatchable(s.table[pc.rid].rem.status) {
      var r := Claim(s.table[pc.rid], now);
      ClaimKeeps(cfg, s.table[pc.rid], now);
      RecordChange(cfg, s, pc.rid, r);
      CurrentEvolves(s.table, s.table[pc.rid := r], pc.rid, pc.snap);
      WorkerChange(cfg, WithRecord(s, pc.rid, r), w, Claimed(pc.rid, pc.snap));
    }
  }

  lemma MoreInvocations(s: System, v: Invocation)
    requires CallsHold(s)
    ensures CallsHold(s.(invocations := s.invocations + [v]))
  {
    forall i | 0 <= i < |s.calls| ensures CallHolds(s.invocations + [v], s.calls[i]) {
      assert CallHolds(s.invocations, s.calls[i]);
      var n :| 0 <= n < |s.invocations| && HasEffect(s.invocations[n].snap) &&
               s.calls[i] == CallOf(s.invocations[n].snap);
      assert (s.invocations + [v])[n] == s.invocations[n];
    }
  }

  lemma InvokeKeeps(cfg: Config, s: System, w: nat)
    requires SystemInv(cfg, s)
    ensures Good(cfg, s, InvokeHandler(s, w))
  {
    SameTableEvolves(s.table);
    PCHolds(cfg, s, w);
    var pc := PC(s, w);
    if pc.Claimed? {
      WorkerChange(cfg, s, w, Invoked(pc.rid, pc.snap));
      MoreInvocations(WithWorker(s, w, Invoked(pc.rid, pc.snap)), Invocation(pc.rid, pc.snap));
    }
  }

  lemma EffectKeeps(cfg: Config, s: System, n: nat)
    requires SystemInv(cfg, s)
    ensures Good(cfg, s, ApplyEffect(s, n))
  {
    SameTableEvolves(s.table);
    if n < |s.invocations| && HasEffect(s.invocations[n].snap) {
      MoreCalls(s, CallOf(s.invocations[n].snap), n);
    }
  }

  lemma FinishHandledKeeps(cfg: Config, s: System, w: nat, ending: Ending)
    requires SystemInv(cfg, s)
    ensures Good(cfg, s, FinishHandled(s, w, ending))
  {
    SameTableEvolves(s.table);
    if PC(s, w).Invoked? && PC(s, w).rid in s.table { EndJobKeeps(cfg, s, w, PC(s, w).rid, ending); }
  }

  lemma MoreCalls(s: System, c: ControlState.Call, n: nat)
    requires CallsHold(s) && n < |s.invocations| && HasEffect(s.invocations[n].snap) && c == CallOf(s.invocations[n].snap)
    ensures CallsHold(s.(calls := s.calls + [c]))
  {
    assert CallHolds(s.invocations, c);
  }

  lemma WorkerStepKeeps(cfg: Config, s: System, step: Step)
    requires SystemInv(cfg, s) && OfWorker(step)
    ensures Good(cfg, s, WorkerNext(cfg, s, step))
  {
    hide Good, SystemInv;
    match step
    case Deliver(w, m) => TakeKeeps(cfg, s, w, m);
    case Check(w) => CheckKeeps(cfg, s, w);
    case Reject(w) => RejectKeeps(cfg, s, w);
    case ClaimJob(w, now) => TryClaimKeeps(cfg, s, w, now);
    case Invoke(w) => InvokeKeeps(cfg, s, w);
    case Effect(n) => EffectKeeps(cfg, s, n);
    case FinishJob(w, ending) => FinishHandledKeeps(cfg, s, w, ending);
    case Abandon(w) => AbandonKeeps(cfg, s, w);
  }

  lemma CreateKeeps(cfg: Config, s: System, rid: RemId, input: Policy.Input, proposer: string, key: string)
    requires SystemInv(cfg, s)
    ensures Good(cfg, s, CreateRow(cfg, s, rid, input, proposer, key))
  {
    SameTableEvolves(s.table);
    if rid !in s.table && !KeyTaken(s.table, key) {
      ProposeKeeps(cfg, input, proposer, key);
      InsertKeeps(cfg, s, rid, Propose(cfg, input, proposer, key));
    }
  }

  lemma OpenRequestKeeps(cfg: Config, s: System, rid: RemId, now: Time)
    requires SystemInv(cfg, s)
    ensures Good(cfg, s, OpenFor(cfg, s, rid, now))
  {
    SameTableEvolves(s.table);
    if rid in s.table && rid in s.wantsApproval {
      RequestApprovalKeeps(cfg, s.table[rid], now);
      RecordChange(cfg, s, rid, RequestApproval(cfg, s.table[rid], now));
    }
  }

  lemma TransactOnKeeps(cfg: Config, s: System, rid: RemId, tx: Transaction)
    requires SystemInv(cfg, s)
    ensures Good(cfg, s, TransactOn(cfg, s, rid, tx))
  {
    SameTableEvolves(s.table);
    if rid in s.table {
      TransactKeeps(cfg, s.table[rid], tx);
      RecordChange(cfg, s, rid, Transact(cfg, s.table[rid], tx));
    }
  }

  lemma NoticeKeeps(cfg: Config, s: System, rid: RemId)
    requires SystemInv(cfg, s)
    ensures Good(cfg, s, NoticeAwaiting(s, rid))
  {
    hide Gated, Boxed, Budgeted, Audited, Evolves, Current, ItemHolds, Runnable, HasEffect, CallOf;
    SameTableEvolves(s.table);
    if rid in s.table { assert Coupled(s.table[rid]); }
  }

  /** Every step of every actor keeps the invariant and moves each record only by a legal transaction. */
  lemma NextKeeps(cfg: Config, s: System, step: Step)
    requires SystemInv(cfg, s)
    ensures SystemInv(cfg, Next(cfg, s, step)) && TableEvolves(s.table, Next(cfg, s, step).table)
  {
    if OfDispatcher(step) {
      DispatcherKeeps(cfg, s, step);
    } else if OfWorker(step) {
      WorkerStepKeeps(cfg, s, step);
    } else {
      match step
      case Create(rid, input, proposer, key) => CreateKeeps(cfg, s, rid, input, proposer, key);
      case SeeAwaiting(rid) => NoticeKeeps(cfg, s, rid);
      case OpenRequest(rid, now) => OpenRequestKeeps(cfg, s, rid, now);
      case OnRecord(rid, tx) => TransactOnKeeps(cfg, s, rid, tx);
    }
  }

  /** The invariant holds after every run: any interleaving, redelivery, replay or loss. */
  lemma {:induction false} RunHolds(cfg: Config, steps: seq<Step>)
    ensures SystemInv(cfg, Run(cfg, steps))
  {
    if |steps| > 0 {
      RunHolds(cfg, steps[..|steps| - 1]);
      NextKeeps(cfg, Run(cfg, steps[..|steps| - 1]), steps[|steps| - 1]);
    }
  }
}
