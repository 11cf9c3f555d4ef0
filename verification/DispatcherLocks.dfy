/** Dispatchers never step on each other: a row is in one dispatcher's hands at a time, is still pending while it is, and
    is settled once. */
module DispatcherLocks {
  import opened Text
  import opened DispatchIds
  import opened Records
  import opened RecordInvariants
  import opened Protocol
  import opened ProtocolInvariants
  import opened ProtocolTheorems
  import opened OutboxDelivery

  /** The rows a dispatcher has locked: those it is done with and those it is not. */
  function Held(b: Dispatcher): seq<Item> { seq(|b.done|, i requires 0 <= i < |b.done| => b.done[i].0) + b.todo }

  predicate Holds(s: System, d: nat, i: nat) { d in s.dispatchers && i < |Held(s.dispatchers[d])| }

  function ItemAt(s: System, d: nat, i: nat): Item
    requires Holds(s, d, i)
  {
    Held(s.dispatchers[d])[i]
  }

  predicate PendingRow(t: Table, item: Item) {
    item.rid in t ==> forall k :: 0 <= k < |t[item.rid].outbox| && t[item.rid].outbox[k].id == item.id ==>
                        t[item.rid].outbox[k].state == Pending
  }

  ghost predicate Exclusive(s: System) {
    forall d, i, e, j :: Holds(s, d, i) && Holds(s, e, j) && (d, i) != (e, j) ==> ItemAt(s, d, i).id != ItemAt(s, e, j).id
  }

  ghost predicate AllPending(s: System) { forall d, i :: Holds(s, d, i) ==> PendingRow(s.table, ItemAt(s, d, i)) }

  ghost predicate LocksHold(s: System) { Exclusive(s) && AllPending(s) }

  // ----- Steps that leave the dispatchers alone -----

  /** Rows are kept as they are and new ones start pending. */
  predicate RowsKept(t: Table, u: Table) {
    && (forall rid :: rid in t ==> rid in u && PublishesNothing(t[rid].outbox, u[rid].outbox))
    && (forall rid :: rid in u && rid !in t ==> PublishesNothing([], u[rid].outbox))
  }

  lemma StillPending(t: Table, u: Table, item: Item)
    requires RowsKept(t, u) && PendingRow(t, item)
    ensures PendingRow(u, item)
  {
    if item.rid in u {
      var p := u[item.rid].outbox;
      var o := if item.rid in t then t[item.rid].outbox else [];
      forall k | 0 <= k < |p| && p[k].id == item.id ensures p[k].state == Pending {
        assert PublishesNothing(o, p);
        if k < |o| { assert p[k] == p[..|o|][k] == o[k]; }
      }
    }
  }

  lemma SameDispatchers(s: System, s': System)
    requires LocksHold(s) && s'.dispatchers == s.dispatchers && RowsKept(s.table, s'.table)
    ensures LocksHold(s')
  {
    hide PendingRow, RowsKept;
    forall d, i | Holds(s', d, i) ensures PendingRow(s'.table, ItemAt(s', d, i)) {
      assert Holds(s, d, i) && ItemAt(s', d, i) == ItemAt(s, d, i);
      StillPending(s.table, s'.table, ItemAt(s, d, i));
    }
    forall d, i, e, j | Holds(s', d, i) && Holds(s', e, j) && (d, i) != (e, j)
      ensures ItemAt(s', d, i).id != ItemAt(s', e, j).id {
      assert Holds(s, d, i) && Holds(s, e, j);
    }
  }

  lemma SelfKept(t: Table)
    ensures RowsKept(t, t)
  {
    forall rid | rid in t ensures PublishesNothing(t[rid].outbox, t[rid].outbox) {
      assert t[rid].outbox[..|t[rid].outbox|] == t[rid].outbox;
    }
  }

  lemma OneKept(t: Table, rid: RemId, r: Record)
    requires rid in t && PublishesNothing(t[rid].outbox, r.outbox)
    ensures RowsKept(t, t[rid := r])
  {
    SelfKept(t);
  }

  lemma WorkersKeepRows(cfg: Config, s: System, step: Step)
    requires OfWorker(step)
    ensures RowsKept(s.table, WorkerNext(cfg, s, step).table) && WorkerNext(cfg, s, step).dispatchers == s.dispatchers
  {
    hide Runnable, HasEffect, CallOf, Finish, Claim;
    forall r: Record, e: Ending ensures Finish(r, e).outbox == r.outbox { WorkersLeaveOutbox(r, e, 0); }
    forall r: Record, now: Time ensures Claim(r, now).outbox == r.outbox { WorkersLeaveOutbox(r, Done, now); }
    var s' := WorkerNext(cfg, s, step);
    assert s'.table.Keys == s.table.Keys && forall rid :: rid in s.table ==> s'.table[rid].outbox == s.table[rid].outbox;
    SelfKept(s.table);
  }

  lemma OthersKeepRows(cfg: Config, s: System, step: Step)
    requires !OfWorker(step) && !OfDispatcher(step)
    ensures RowsKept(s.table, Next(cfg, s, step).table) && Next(cfg, s, step).dispatchers == s.dispatchers
  {
    hide Transact, KeyTaken, RowsKept, PublishesNothing;
    SelfKept(s.table);
    match step
    case OnRecord(rid, tx) =>
      if rid in s.table {
        TransactPublishesNothing(cfg, s.table[rid], tx);
        OneKept(s.table, rid, Transact(cfg, s.table[rid], tx));
      }
    case OpenRequest(rid, now) => if rid in s.table { RequestKeepsRows(cfg, s.table, rid, now); }
    case Create(rid, input, proposer, key) =>
      if rid !in s.table { NewRowKept(s.table, rid, Propose(cfg, input, proposer, key)); }
    case SeeAwaiting(_) =>
  }

  lemma RequestKeepsRows(cfg: Config, t: Table, rid: RemId, now: Time)
    requires rid in t
    ensures RowsKept(t, t[rid := RequestApproval(cfg, t[rid], now)])
  {
    SelfKept(t);
  }

  lemma NewRowKept(t: Table, rid: RemId, r: Record)
    requires rid !in t && r.outbox == []
    ensures RowsKept(t, t[rid := r])
  {
    SelfKept(t);
  }

  // ----- Dispatchers -----

  lemma SelectLocks(cfg: Config, s: System, d: nat, rows: seq<(RemId, nat)>, now: Time)
    requires SystemInv(cfg, s) && LocksHold(s)
    ensures LocksHold(SelectBatch(s, d, rows, now))
  {
    hide SystemInv, PendingRow, Selectable, Batch;
    var s' := SelectBatch(s, d, rows, now);
    if s' != s {
      var b := s'.dispatchers[d];
      forall e, i | Holds(s', e, i) ensures e != d ==> Holds(s, e, i) && ItemAt(s', e, i) == ItemAt(s, e, i) { }
      BatchHeld(s, rows, now);
      forall i | 0 <= i < |rows| ensures PendingRow(s.table, Held(b)[i]) { SelectedIsPending(cfg, s, rows[i], now); }
      forall e: nat, i: nat, f: nat, j: nat | Holds(s', e, i) && Holds(s', f, j) && (e, i) != (f, j)
        ensures ItemAt(s', e, i).id != ItemAt(s', f, j).id {
        if e == d && f == d {
          RowsDiffer(cfg, s, rows[i], rows[j], now);
        } else if e == d {
          SelectedIsFree(s, rows[i], now, f, j);
        } else if f == d {
          SelectedIsFree(s, rows[j], now, e, i);
        }
      }
    }
  }

  lemma BatchHeld(s: System, rows: seq<(RemId, nat)>, now: Time)
    requires forall i :: 0 <= i < |rows| ==> Selectable(s, rows[i], now)
    ensures var held := Held(Dispatcher(Batch(s, rows, now), []));
            |held| == |rows| && forall i :: 0 <= i < |rows| ==> held[i] == ItemOf(s, rows[i], now)
  {
    hide Selectable;
  }

  lemma SelectedIsPending(cfg: Config, s: System, row: (RemId, nat), now: Time)
    requires SystemInv(cfg, s) && Selectable(s, row, now)
    ensures PendingRow(s.table, ItemOf(s, row, now))
  {
    hide Locked, StreamHolds, BatchesHold, WorkersHold, InvocationsHold, CallsHold, Coupled, Gated, Budgeted, Audited;
    assert Boxed(s.table[row.0]);
  }

  lemma SelectedIsFree(s: System, row: (RemId, nat), now: Time, e: nat, i: nat)
    requires Selectable(s, row, now) && Holds(s, e, i)
    ensures ItemAt(s, e, i).id != ItemOf(s, row, now).id
  {
    var b := s.dispatchers[e];
    assert !HoldsId(b, s.table[row.0].outbox[row.1].id);
    if i < |b.done| { assert b.done[i].0 == ItemAt(s, e, i); } else { assert b.todo[i - |b.done|] == ItemAt(s, e, i); }
  }

  lemma RowsDiffer(cfg: Config, s: System, a: (RemId, nat), b: (RemId, nat), now: Time)
    requires SystemInv(cfg, s) && Selectable(s, a, now) && Selectable(s, b, now) && a != b
    ensures ItemOf(s, a, now).id != ItemOf(s, b, now).id
  {
    hide Locked, StreamHolds, BatchesHold, WorkersHold, InvocationsHold, CallsHold, Coupled, Gated, Budgeted, Audited;
    assert Boxed(s.table[a.0]) && Boxed(s.table[b.0]);
  }

  /** After a publish a dispatcher holds the rows it held, or the first of them. */
  lemma PublishHeld(cfg: Config, s: System, d: nat, ack: Ack, now: Time)
    requires d in s.dispatchers
    ensures var s' := PublishOne(cfg, s, d, ack, now);
            && s'.table == s.table && d in s'.dispatchers && Held(s'.dispatchers[d]) <= Held(s.dispatchers[d])
            && forall e :: e != d ==> (e in s'.dispatchers <==> e in s.dispatchers)
                                      && (e in s.dispatchers ==> s'.dispatchers[e] == s.dispatchers[e])
  {
    hide Stored;
    var b := s.dispatchers[d];
    if |b.todo| > 0 {
      assert b.todo == [b.todo[0]] + b.todo[1..];
      forall o: Outcome ensures Held(Dispatcher(b.todo[1..], b.done + [(b.todo[0], o)])) == Held(b) { }
      forall o: Outcome ensures Held(Dispatcher([], b.done + [(b.todo[0], o)])) <= Held(b) { }
    }
  }

  lemma FewerHeld(s: System, s': System)
    requires LocksHold(s) && s'.table == s.table
    requires forall e :: e in s'.dispatchers ==> e in s.dispatchers && Held(s'.dispatchers[e]) <= Held(s.dispatchers[e])
    ensures LocksHold(s')
  {
    hide PendingRow, Held;
    forall e, i | Holds(s', e, i) ensures Holds(s, e, i) && ItemAt(s', e, i) == ItemAt(s, e, i) { }
    forall d, i, e, j | Holds(s', d, i) && Holds(s', e, j) && (d, i) != (e, j)
      ensures ItemAt(s', d, i).id != ItemAt(s', e, j).id {
      assert Holds(s, d, i) && Holds(s, e, j);
    }
  }

  /** Committing a batch touches no row another dispatcher holds. */
  lemma {:induction false} MarksOnlyTheirs(t: Table, done: seq<(Item, Outcome)>, rid: RemId, k: nat)
    requires rid in t && k < |t[rid].outbox|
    requires forall i :: 0 <= i < |done| ==> done[i].0.id != t[rid].outbox[k].id
    ensures rid in MarkRows(t, done) && k < |MarkRows(t, done)[rid].outbox|
    ensures MarkRows(t, done)[rid].outbox[k] == t[rid].outbox[k] && |MarkRows(t, done)[rid].outbox| == |t[rid].outbox|
  {
    if |done| > 0 { MarksOnlyTheirs(t, done[..|done| - 1], rid, k); }
  }

  lemma {:induction false} MarksSameShape(t: Table, done: seq<(Item, Outcome)>, rid: RemId)
    requires rid in MarkRows(t, done)
    ensures rid in t && |MarkRows(t, done)[rid].outbox| == |t[rid].outbox|
    ensures forall k :: 0 <= k < |t[rid].outbox| ==> MarkRows(t, done)[rid].outbox[k].id == t[rid].outbox[k].id
  {
    if |done| > 0 { MarksSameShape(t, done[..|done| - 1], rid); }
  }

  lemma CommitLocks(cfg: Config, s: System, d: nat)
    requires LocksHold(s)
    ensures LocksHold(CommitBatch(s, d))
  {
    hide MarkRows;
    var s' := CommitBatch(s, d);
    if d in s.dispatchers && |s.dispatchers[d].todo| == 0 {
      forall e, i | Holds(s', e, i) ensures Holds(s, e, i) && ItemAt(s', e, i) == ItemAt(s, e, i) && e != d { }
      forall e, i | Holds(s', e, i) ensures PendingRow(s'.table, ItemAt(s', e, i)) {
        CommitLeavesPending(s, d, e, i);
      }
      forall e, i, f, j | Holds(s', e, i) && Holds(s', f, j) && (e, i) != (f, j)
        ensures ItemAt(s', e, i).id != ItemAt(s', f, j).id {
        assert Holds(s, e, i) && Holds(s, f, j);
      }
    }
  }

  lemma CommitLeavesPending(s: System, d: nat, e: nat, i: nat)
    requires LocksHold(s) && d in s.dispatchers && Holds(s, e, i) && e != d
    ensures PendingRow(MarkRows(s.table, s.dispatchers[d].done), ItemAt(s, e, i))
  {
    hide MarkRows;
    var done, item := s.dispatchers[d].done, ItemAt(s, e, i);
    var u := MarkRows(s.table, done);
    if item.rid in u {
      MarksSameShape(s.table, done, item.rid);
      forall k | 0 <= k < |u[item.rid].outbox| && u[item.rid].outbox[k].id == item.id
        ensures u[item.rid].outbox[k].state == Pending {
        assert s.table[item.rid].outbox[k].id == item.id;
        assert PendingRow(s.table, item);
        forall j | 0 <= j < |done| ensures done[j].0.id != item.id { assert Holds(s, d, j) && ItemAt(s, d, j) == done[j].0; }
        MarksOnlyTheirs(s.table, done, item.rid, k);
      }
    }
  }

  lemma NextLocks(cfg: Config, s: System, step: Step)
    requires SystemInv(cfg, s) && LocksHold(s)
    ensures LocksHold(Next(cfg, s, step))
  {
    hide SystemInv, LocksHold, RowsKept, PublishOne, CommitBatch, SelectBatch, WorkerNext;
    if OfWorker(step) {
      WorkersKeepRows(cfg, s, step);
      SameDispatchers(s, Next(cfg, s, step));
    } else if !OfDispatcher(step) {
      OthersKeepRows(cfg, s, step);
      SameDispatchers(s, Next(cfg, s, step));
    } else {
      match step
      case Select(d, rows, now) => SelectLocks(cfg, s, d, rows, now);
      case Publish(d, ack, now) =>
        if d in s.dispatchers {
          PublishHeld(cfg, s, d, ack, now);
          FewerHeld(s, Next(cfg, s, step));
        } else {
          NothingToPublish(cfg, s, d, ack, now);
        }
      case Commit(d) => CommitLocks(cfg, s, d);
      case Rollback(d) => FewerHeld(s, ForgetBatch(s, d));
      case Tick(to) => SelfKept(s.table); SameDispatchers(s, Next(cfg, s, step));
    }
  }

  lemma NothingToPublish(cfg: Config, s: System, d: nat, ack: Ack, now: Time)
    requires d !in s.dispatchers
    ensures PublishOne(cfg, s, d, ack, now) == s
  {
  }

  lemma {:induction false} RunLocks(cfg: Config, steps: seq<Step>)
    ensures LocksHold(Run(cfg, steps))
  {
    hide Next, SystemInv;
    if |steps| > 0 {
      RunLocks(cfg, steps[..|steps| - 1]);
      RunHolds(cfg, steps[..|steps| - 1]);
      NextLocks(cfg, Run(cfg, steps[..|steps| - 1]), steps[|steps| - 1]);
    }
  }

  /** In every run no outbox row is in two dispatchers' hands or twice in one's, and a row somebody holds is pending. */
  lemma RowsAreHeldOnce(cfg: Config, steps: seq<Step>, d: nat, i: nat, e: nat, j: nat)
    requires Holds(Run(cfg, steps), d, i) && Holds(Run(cfg, steps), e, j)
    ensures (d, i) != (e, j) ==> ItemAt(Run(cfg, steps), d, i).id != ItemAt(Run(cfg, steps), e, j).id
    ensures PendingRow(Run(cfg, steps).table, ItemAt(Run(cfg, steps), d, i))
  {
    hide Run;
    RunLocks(cfg, steps);
  }

  /** A dispatcher takes rows that are pending and due and that nobody holds, each with its remediation's status as of
      then. */
  lemma OnlyDueRowsAreTaken(cfg: Config, steps: seq<Step>, n: nat, d: nat, i: nat)
    requires n < |steps| && steps[n].Select? && steps[n].d == d
    requires d !in StateAt(cfg, steps, n).dispatchers && d in StateAt(cfg, steps, n + 1).dispatchers
    requires i < |StateAt(cfg, steps, n + 1).dispatchers[d].todo|
    ensures var s, b := StateAt(cfg, steps, n), StateAt(cfg, steps, n + 1).dispatchers[d];
            var item := b.todo[i];
            && b.done == [] && |b.todo| == |steps[n].rows| && item.rid in s.table && item.seen == s.table[item.rid].rem.status
            && (forall e, j :: Holds(s, e, j) ==> ItemAt(s, e, j).id != item.id)
            && exists k :: 0 <= k < |s.table[item.rid].outbox| && DueAs(s.table[item.rid].outbox[k], item.id, steps[n].now)
  {
    hide Run, Selectable, Held;
    StepAt(cfg, steps, n);
    var s := StateAt(cfg, steps, n);
    var row := steps[n].rows[i];
    DueRow(s, row, steps[n].now);
    forall e: nat, j: nat | Holds(s, e, j) ensures ItemAt(s, e, j).id != ItemOf(s, row, steps[n].now).id {
      SelectedIsFree(s, row, steps[n].now, e, j);
    }
  }

  predicate DueAs(d: Dispatch, id: Id, now: Time) { d.id == id && d.state == Pending && d.nextAttemptAt <= now }

  lemma DueRow(s: System, row: (RemId, nat), now: Time)
    requires Selectable(s, row, now)
    ensures row.0 in s.table && row.1 < |s.table[row.0].outbox|
    ensures ItemOf(s, row, now).rid == row.0 && ItemOf(s, row, now).seen == s.table[row.0].rem.status
    ensures DueAs(s.table[row.0].outbox[row.1], ItemOf(s, row, now).id, now)
  {
    hide Locked;
  }

  // ----- Settled rows -----

  lemma StepKeepsSettled(cfg: Config, s: System, step: Step, rid: RemId, k: nat)
    requires SystemInv(cfg, s) && LocksHold(s) && rid in s.table && k < |s.table[rid].outbox|
    requires s.table[rid].outbox[k].state != Pending
    ensures var t := Next(cfg, s, step).table;
            rid in t && k < |t[rid].outbox| && t[rid].outbox[k] == s.table[rid].outbox[k]
  {
    hide WorkerNext, PublishOne, MarkRows, SystemInv, Selectable;
    if OfWorker(step) {
      WorkersKeepRows(cfg, s, step);
      KeptAt(s.table, Next(cfg, s, step).table, rid, k);
    } else if !OfDispatcher(step) {
      OthersKeepRows(cfg, s, step);
      KeptAt(s.table, Next(cfg, s, step).table, rid, k);
    } else if step.Commit? && step.d in s.dispatchers {
      SettledNotHeld(cfg, s, step.d, rid, k);
      MarksOnlyTheirs(s.table, s.dispatchers[step.d].done, rid, k);
    } else if step.Publish? {
      if step.d in s.dispatchers { PublishHeld(cfg, s, step.d, step.ack, step.now); }
      else { NothingToPublish(cfg, s, step.d, step.ack, step.now); }
    }
  }

  lemma KeptAt(t: Table, u: Table, rid: RemId, k: nat)
    requires RowsKept(t, u) && rid in t && k < |t[rid].outbox|
    ensures rid in u && k < |u[rid].outbox| && u[rid].outbox[k] == t[rid].outbox[k]
  {
    assert u[rid].outbox[k] == u[rid].outbox[..|t[rid].outbox|][k];
  }

  lemma SettledNotHeld(cfg: Config, s: System, d: nat, rid: RemId, k: nat)
    requires SystemInv(cfg, s) && LocksHold(s) && d in s.dispatchers && rid in s.table && k < |s.table[rid].outbox|
    requires s.table[rid].outbox[k].state != Pending
    ensures forall i :: 0 <= i < |s.dispatchers[d].done| ==> s.dispatchers[d].done[i].0.id != s.table[rid].outbox[k].id
  {
    hide StreamHolds, WorkersHold, InvocationsHold, CallsHold, Coupled, Gated, Budgeted, Audited, LocksHold;
    var done := s.dispatchers[d].done;
    forall i | 0 <= i < |done| ensures done[i].0.id != s.table[rid].outbox[k].id {
      var item := done[i].0;
      HeldIsPending(s, d, i);
      assert BatchHolds(s.table, s.dispatchers[d]) && ItemHolds(s.table, item);
      assert Boxed(s.table[rid]) && Boxed(s.table[item.rid]);
    }
  }

  lemma HeldIsPending(s: System, d: nat, i: nat)
    requires LocksHold(s) && d in s.dispatchers && i < |s.dispatchers[d].done|
    ensures PendingRow(s.table, s.dispatchers[d].done[i].0)
  {
    assert Holds(s, d, i) && ItemAt(s, d, i) == s.dispatchers[d].done[i].0;
  }

  /** A row that was published or skipped is never touched again. */
  lemma {:induction false} SettledRowsStay(cfg: Config, steps: seq<Step>, m: nat, n: nat, rid: RemId, k: nat)
    requires m <= n <= |steps| && rid in StateAt(cfg, steps, m).table && k < |StateAt(cfg, steps, m).table[rid].outbox|
    requires StateAt(cfg, steps, m).table[rid].outbox[k].state != Pending
    ensures var t := StateAt(cfg, steps, n).table;
            rid in t && k < |t[rid].outbox| && t[rid].outbox[k] == StateAt(cfg, steps, m).table[rid].outbox[k]
  {
    hide Run, Next, SystemInv, LocksHold;
    if m < n {
      SettledRowsStay(cfg, steps, m, n - 1, rid, k);
      StepAt(cfg, steps, n - 1);
      RunHolds(cfg, steps[..n - 1]);
      RunLocks(cfg, steps[..n - 1]);
      StepKeepsSettled(cfg, StateAt(cfg, steps, n - 1), steps[n - 1], rid, k);
    }
  }

  // ----- What a commit writes -----

  function Power(n: nat): nat { if n == 0 then 1 else 2 * Power(n - 1) }

  lemma {:induction false} PowerGrows(n: nat)
    requires n >= 5
    ensures Power(n) >= 32
  {
    if n > 5 { PowerGrows(n - 1); } else { assert Power(5) == 2 * Power(4) == 4 * Power(3) == 8 * Power(2) == 16 * Power(1); }
  }

  /** The wait doubles with every attempt, up to half a minute. */
  lemma BackoffDoubles(attempts: nat)
    requires attempts > 0
    ensures Backoff(attempts) == if Power(attempts - 1) < 30 then Power(attempts - 1) else 30
  {
    if attempts >= 6 { PowerGrows(attempts - 1); }
    else { assert Power(0) == 1 && Power(1) == 2 && Power(2) == 4 && Power(3) == 8 && Power(4) == 16; }
  }

  /** A sent row is published at its time, one that was not sent waits for its next attempt, and one whose remediation was
      over is skipped. */
  predicate SettledAs(before: Dispatch, after: Dispatch, o: Outcome) {
    match o
    case Sent(at) => after == before.(state := Published, publishedAt := Some(at), attempts := before.attempts + 1)
    case NotSent(at) =>
      after == before.(attempts := before.attempts + 1,
                       nextAttemptAt := at + if Power(before.attempts) < 30 then Power(before.attempts) else 30)
    case Skip => after == before.(state := Skipped)
  }

  lemma {:induction false} MarkedOnce(t: Table, done: seq<(Item, Outcome)>, i: nat, rid: RemId, k: nat)
    requires i < |done| && rid == done[i].0.rid && rid in t && k < |t[rid].outbox| && t[rid].outbox[k].id == done[i].0.id
    requires forall j :: 0 <= j < |done| && j != i ==> done[j].0.id != done[i].0.id
    ensures rid in MarkRows(t, done) && k < |MarkRows(t, done)[rid].outbox|
    ensures SettledAs(t[rid].outbox[k], MarkRows(t, done)[rid].outbox[k], done[i].1)
  {
    hide SettledAs;
    var n := |done| - 1;
    if i < n {
      MarkedOnce(t, done[..n], i, rid, k);
      MarksSameShape(t, done[..n], rid);
      assert done[n].0.id != done[i].0.id;
    } else {
      MarksOnlyTheirs(t, done[..n], rid, k);
      MarkedIs(t[rid].outbox[k], done[i].1);
    }
  }

  lemma MarkedIs(d: Dispatch, o: Outcome)
    ensures SettledAs(d, Marked(d, o), o)
  {
    BackoffDoubles(d.attempts + 1);
  }

  /** A committed batch settles each of its rows as that row came out, however many dispatchers are at work; every other
      row stays as it is. */
  lemma CommitSettlesItsRows(cfg: Config, steps: seq<Step>, n: nat, d: nat, rid: RemId, k: nat)
    requires n < |steps| && steps[n] == Commit(d) && d in StateAt(cfg, steps, n).dispatchers
    requires StateAt(cfg, steps, n).dispatchers[d].todo == []
    requires rid in StateAt(cfg, steps, n).table && k < |StateAt(cfg, steps, n).table[rid].outbox|
    ensures var t, done := StateAt(cfg, steps, n + 1).table, StateAt(cfg, steps, n).dispatchers[d].done;
            var before := StateAt(cfg, steps, n).table[rid].outbox[k];
            && rid in t && k < |t[rid].outbox|
            && (forall i :: 0 <= i < |done| && done[i].0.id == before.id ==> SettledAs(before, t[rid].outbox[k], done[i].1))
            && ((forall i :: 0 <= i < |done| ==> done[i].0.id != before.id) ==> t[rid].outbox[k] == before)
  {
    hide Run, SystemInv, LocksHold, SettledAs, MarkRows;
    StepAt(cfg, steps, n);
    RunHolds(cfg, steps[..n]);
    RunLocks(cfg, steps[..n]);
    var s := StateAt(cfg, steps, n);
    var done, before := s.dispatchers[d].done, s.table[rid].outbox[k];
    if i :| 0 <= i < |done| && done[i].0.id == before.id {
      HeldOnceHere(s, d, i);
      HeldRecord(cfg, s, d, i, rid, k);
      MarkedOnce(s.table, done, i, rid, k);
    } else {
      MarksOnlyTheirs(s.table, done, rid, k);
    }
  }

  lemma HeldOnceHere(s: System, d: nat, i: nat)
    requires LocksHold(s) && d in s.dispatchers && i < |s.dispatchers[d].done|
    ensures forall j :: 0 <= j < |s.dispatchers[d].done| && j != i ==>
              s.dispatchers[d].done[j].0.id != s.dispatchers[d].done[i].0.id
  {
    var done := s.dispatchers[d].done;
    assert Holds(s, d, i) && ItemAt(s, d, i) == done[i].0;
    forall j | 0 <= j < |done| && j != i ensures done[j].0.id != done[i].0.id {
      assert Holds(s, d, j) && ItemAt(s, d, j) == done[j].0;
    }
  }

  lemma HeldRecord(cfg: Config, s: System, d: nat, i: nat, rid: RemId, k: nat)
    requires SystemInv(cfg, s) && d in s.dispatchers && i < |s.dispatchers[d].done|
    requires rid in s.table && k < |s.table[rid].outbox| && s.table[rid].outbox[k].id == s.dispatchers[d].done[i].0.id
    ensures s.dispatchers[d].done[i].0.rid == rid
  {
    hide StreamHolds, WorkersHold, InvocationsHold, CallsHold, Coupled, Gated, Budgeted, Audited;
    var item := s.dispatchers[d].done[i].0;
    assert BatchHolds(s.table, s.dispatchers[d]) && ItemHolds(s.table, item);
    assert Boxed(s.table[rid]) && Boxed(s.table[item.rid]);
  }
}
