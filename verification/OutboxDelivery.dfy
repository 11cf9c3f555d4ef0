/** Nothing is lost between PostgreSQL and JetStream: a row leaves the outbox only once its message is stored. */
module OutboxDelivery {
  import opened RemediationStates
  import opened DispatchIds
  import opened Records
  import opened RecordInvariants
  import opened Protocol
  import opened ProtocolInvariants

  predicate Logged(stream: seq<Message>, id: Id) { exists m :: 0 <= m < |stream| && stream[m].id == id }

  predicate RowsLogged(stream: seq<Message>, o: seq<Dispatch>) {
    forall i :: 0 <= i < |o| && o[i].state == Published ==> Logged(stream, o[i].id)
  }

  predicate SentLogged(stream: seq<Message>, done: seq<(Item, Outcome)>) {
    forall i :: 0 <= i < |done| && done[i].1.Sent? ==> Logged(stream, done[i].0.id)
  }

  predicate TableLogged(stream: seq<Message>, t: Table) {
    forall rid :: rid in t ==> RowsLogged(stream, t[rid].outbox)
  }

  predicate BatchesLogged(s: System) {
    forall d :: d in s.dispatchers ==> SentLogged(s.stream, s.dispatchers[d].done)
  }

  predicate AllLogged(s: System) { TableLogged(s.stream, s.table) && BatchesLogged(s) }

  // ----- Only a committed batch publishes -----

  predicate PublishesNothing(o: seq<Dispatch>, p: seq<Dispatch>) {
    |o| <= |p| && p[..|o|] == o && forall i :: |o| <= i < |p| ==> p[i].state == Pending
  }

  lemma StillLogged(stream: seq<Message>, o: seq<Dispatch>, p: seq<Dispatch>)
    requires RowsLogged(stream, o) && PublishesNothing(o, p)
    ensures RowsLogged(stream, p)
  {
    forall i | 0 <= i < |p| && p[i].state == Published ensures Logged(stream, p[i].id) {
      assert p[i] == p[..|o|][i];
    }
  }

  lemma TransactPublishesNothing(cfg: Config, r: Record, tx: Transaction)
    ensures PublishesNothing(r.outbox, Transact(cfg, r, tx).outbox)
  {
    match tx
    case ToDecide(actor, approve, text, now) =>
      assert Decide(cfg, r, actor, approve, text, now).outbox == r.outbox;
    case ToReserve(dryRun, now) => assert Reserve(r, dryRun, now).outbox[..|r.outbox|] == r.outbox;
    case ToReplay(now) => assert SendAgain(r, Replay, now).outbox[..|r.outbox|] == r.outbox;
    case ToReconcile(hasWorker, now) =>
      assert SendAgain(r, Redispatch, now).outbox[..|r.outbox|] == r.outbox;
      assert Finish(r, Exhausted).outbox[..|r.outbox|] == r.outbox;
    case _ =>
  }

  lemma MoreStream(stream: seq<Message>, m: Message, id: Id)
    requires Logged(stream, id)
    ensures Logged(stream + [m], id)
  {
    var i :| 0 <= i < |stream| && stream[i].id == id;
    assert (stream + [m])[i].id == id;
  }

  lemma LongerStream(s: System, stream: seq<Message>)
    requires AllLogged(s) && (stream == s.stream || (|stream| > 0 && stream[..|stream| - 1] == s.stream))
    ensures AllLogged(s.(stream := stream))
  {
    if stream != s.stream {
      var m := stream[|stream| - 1];
      assert stream == s.stream + [m];
      forall rid, i | rid in s.table && 0 <= i < |s.table[rid].outbox| && s.table[rid].outbox[i].state == Published
        ensures Logged(stream, s.table[rid].outbox[i].id)
      {
        assert RowsLogged(s.stream, s.table[rid].outbox);
        MoreStream(s.stream, m, s.table[rid].outbox[i].id);
      }
      forall d, i | d in s.dispatchers && 0 <= i < |s.dispatchers[d].done| && s.dispatchers[d].done[i].1.Sent?
        ensures Logged(stream, s.dispatchers[d].done[i].0.id)
      {
        assert SentLogged(s.stream, s.dispatchers[d].done);
        MoreStream(s.stream, m, s.dispatchers[d].done[i].0.id);
      }
    }
  }

  lemma StoredIsLogged(cfg: Config, s: System, id: Id, rid: RemId)
    ensures Logged(Stored(cfg, s, id, rid), id)
  {
    if !Remembered(cfg, s, id) {
      assert Stored(cfg, s, id, rid)[|s.stream|].id == id;
    }
  }

  lemma PublishLogs(cfg: Config, s: System, d: nat, ack: Ack, now: Time)
    requires AllLogged(s)
    ensures AllLogged(PublishOne(cfg, s, d, ack, now))
  {
    if d in s.dispatchers && |s.dispatchers[d].todo| > 0 {
      var b := s.dispatchers[d];
      var s' := PublishOne(cfg, s, d, ack, now);
      StoredIsLogged(cfg, s, b.todo[0].id, b.todo[0].rid);
      LongerStream(s, s'.stream);
      assert SentLogged(s'.stream, b.done);
      assert SentLogged(s'.stream, s'.dispatchers[d].done);
    }
  }

  lemma {:induction false} CommitLogs(stream: seq<Message>, t: Table, done: seq<(Item, Outcome)>)
    requires TableLogged(stream, t) && SentLogged(stream, done)
    ensures TableLogged(stream, MarkRows(t, done))
  {
    if |done| > 0 {
      var n := |done| - 1;
      CommitLogs(stream, t, done[..n]);
      MarkLogs(stream, MarkRows(t, done[..n]), done[n].0, done[n].1);
    }
  }

  lemma MarkLogs(stream: seq<Message>, t: Table, item: Item, o: Outcome)
    requires TableLogged(stream, t) && (o.Sent? ==> Logged(stream, item.id))
    ensures TableLogged(stream, MarkRow(t, item, o))
  {
    if item.rid in t {
      assert RowsLogged(stream, t[item.rid].outbox);
      assert RowsLogged(stream, Mark(t[item.rid], item.id, o).outbox);
    }
  }

  lemma SetRecordLogs(s: System, rid: RemId, r: Record)
    requires AllLogged(s) && RowsLogged(s.stream, r.outbox)
    ensures AllLogged(WithRecord(s, rid, r))
  {
  }

  lemma TransactLogs(cfg: Config, s: System, rid: RemId, tx: Transaction)
    requires AllLogged(s)
    ensures AllLogged(TransactOn(cfg, s, rid, tx))
  {
    if rid in s.table {
      TransactPublishesNothing(cfg, s.table[rid], tx);
      StillLogged(s.stream, s.table[rid].outbox, Transact(cfg, s.table[rid], tx).outbox);
      SetRecordLogs(s, rid, Transact(cfg, s.table[rid], tx));
    }
  }

  lemma WorkersLeaveOutbox(r: Record, e: Ending, now: Time)
    ensures Finish(r, e).outbox == r.outbox && Claim(r, now).outbox == r.outbox
  {
  }

  lemma WorkerLogs(cfg: Config, s: System, step: Step)
    requires AllLogged(s) && OfWorker(step)
    ensures AllLogged(WorkerNext(cfg, s, step))
  {
    hide Runnable, HasEffect, CallOf, Finish, Claim, Logged;
    forall r: Record, e: Ending ensures Finish(r, e).outbox == r.outbox { WorkersLeaveOutbox(r, e, 0); }
    forall r: Record, now: Time ensures Claim(r, now).outbox == r.outbox { WorkersLeaveOutbox(r, Done, now); }
    var s' := WorkerNext(cfg, s, step);
    assert s'.stream == s.stream && s'.dispatchers == s.dispatchers && s'.table.Keys == s.table.Keys;
    assert forall rid :: rid in s.table ==> s'.table[rid].outbox == s.table[rid].outbox;
  }

  lemma NextLogs(cfg: Config, s: System, step: Step)
    requires AllLogged(s)
    ensures AllLogged(Next(cfg, s, step))
  {
    if OfWorker(step) {
      WorkerLogs(cfg, s, step);
    } else if step.Publish? {
      PublishLogs(cfg, s, step.d, step.ack, step.now);
    } else if step.Commit? {
      if step.d in s.dispatchers { CommitLogs(s.stream, s.table, s.dispatchers[step.d].done); }
    } else if step.OnRecord? {
      TransactLogs(cfg, s, step.rid, step.tx);
    }
  }

  lemma {:induction false} RunLogs(cfg: Config, steps: seq<Step>)
    ensures AllLogged(Run(cfg, steps))
  {
    if |steps| > 0 {
      RunLogs(cfg, steps[..|steps| - 1]);
      NextLogs(cfg, Run(cfg, steps[..|steps| - 1]), steps[|steps| - 1]);
    }
  }

  /** Reserved work is never lost: after every run each of its jobs either still waits in the outbox or has been
      stored by JetStream, even if dispatchers died between publishing and committing. */
  lemma LiveWorkIsPendingOrStored(cfg: Config, steps: seq<Step>, rid: RemId)
    requires rid in Run(cfg, steps).table && Dispatchable(Run(cfg, steps).table[rid].rem.status)
    ensures var s := Run(cfg, steps);
            var o := s.table[rid].outbox;
            |o| > 0 && forall i :: 0 <= i < |o| ==> o[i].state == Pending || Logged(s.stream, o[i].id)
  {
    hide Run, StreamHolds, BatchesHold, WorkersHold, InvocationsHold, CallsHold, Coupled, Gated, Budgeted, Audited;
    RunLogs(cfg, steps);
    RunHolds(cfg, steps);
    var s := Run(cfg, steps);
    assert Boxed(s.table[rid]) && RowsLogged(s.stream, s.table[rid].outbox);
  }
}
