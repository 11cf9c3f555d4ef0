/** How many copies of a message JetStream can hold. */
module DuplicateWindow {
  import opened Catalog
  import opened RemediationStates
  import opened Records
  import opened RecordInvariants
  import opened Protocol
  import opened ProtocolInvariants
  import opened ControlPlane
  import opened ProtocolTheorems
  import Policy

  /** As long as no publish comes later than the window after the first, there is one copy of every message. */
  lemma {:induction false} OneCopyWithinWindow(cfg: Config, steps: seq<Step>, i: nat, j: nat)
    requires i < j < |Run(cfg, steps).stream|
    requires Run(cfg, steps).stream[j].storedAt < Run(cfg, steps).stream[i].storedAt + cfg.duplicateWindow
    ensures Run(cfg, steps).stream[i].id != Run(cfg, steps).stream[j].id
  {
    hide Run;
    if Run(cfg, steps).stream[i].id == Run(cfg, steps).stream[j].id { SecondCopyNeedsExpiredWindow(cfg, steps, i, j); }
  }

  function Diagnostics(environment: string): Policy.Input {
    Policy.Input("operator", environment, CollectDiagnostics, "svc", Unset, map[], 0, 0)
  }

  lemma DiagnosticsAllowed(cfg: Config, environment: string)
    requires environment in cfg.environments
    ensures Propose(cfg, Diagnostics(environment), "p", "k").rem.status == Approved
    ensures Propose(cfg, Diagnostics(environment), "p", "k").outbox == []
  {
    Policy.PolicyGate(cfg.environments, Diagnostics(environment));
  }

  /** Two states of the run: one dispatch row, pending, no dispatcher at work, this many copies stored at these times. */
  predicate OneRow(s: System, stored: seq<Time>) {
    && s.table.Keys == {0} && s.dispatchers == map[] && |s.stream| == |stored|
    && Dispatchable(s.table[0].rem.status) && |s.table[0].outbox| == 1
    && s.table[0].outbox[0].state == Pending && s.table[0].outbox[0].nextAttemptAt == 0
    && forall i :: 0 <= i < |stored| ==> s.stream[i].id == s.table[0].outbox[0].id && s.stream[i].storedAt == stored[i]
  }

  lemma Reserved(cfg: Config, environment: string) returns (steps: seq<Step>)
    requires environment in cfg.environments
    ensures OneRow(Run(cfg, steps), []) && Run(cfg, steps).clock == 0
  {
    hide Run, Propose;
    DiagnosticsAllowed(cfg, environment);
    steps := [];
    assert Run(cfg, steps) == INITIAL by { NoSteps(cfg); }
    CreateStep(cfg, steps, 0, Diagnostics(environment), "p", "k");
    steps := steps + [Create(0, Diagnostics(environment), "p", "k")];
    TransactStep(cfg, steps, 0, ToReserve(true, 0));
    steps := steps + [OnRecord(0, ToReserve(true, 0))];
  }

  lemma NoSteps(cfg: Config)
    ensures Run(cfg, []) == INITIAL
  {
  }

  /** A dispatcher publishes the row and dies before it commits. */
  lemma PublishedAndLost(cfg: Config, before: seq<Step>, stored: seq<Time>) returns (steps: seq<Step>)
    requires OneRow(Run(cfg, before), stored)
    requires forall i :: 0 <= i < |stored| ==> stored[i] + cfg.duplicateWindow <= Run(cfg, before).clock
    ensures OneRow(Run(cfg, steps), stored + [Run(cfg, before).clock]) && Run(cfg, steps).clock == Run(cfg, before).clock
  {
    hide Run;
    var s := Run(cfg, before);
    var rows := [(0, 0)];
    assert Selectable(s, rows[0], 0);
    DispatcherStep(cfg, before, Select(0, rows, 0));
    steps := before + [Select(0, rows, 0)];
    var t := Run(cfg, steps);
    assert t.dispatchers[0].todo == [Item(0, s.table[0].outbox[0].id, s.table[0].rem.status)];
    DispatcherStep(cfg, steps, Publish(0, Acknowledged, 0));
    assert !Remembered(cfg, t, s.table[0].outbox[0].id);
    steps := steps + [Publish(0, Acknowledged, 0)];
    DispatcherStep(cfg, steps, Rollback(0));
    steps := steps + [Rollback(0)];
    assert Run(cfg, steps).dispatchers == map[];
  }

  predicate StoredTwice(cfg: Config, steps: seq<Step>) {
    var stream := Run(cfg, steps).stream;
    |stream| == 2 && stream[0].id == stream[1].id && stream[1].storedAt == stream[0].storedAt + cfg.duplicateWindow
  }

  /** The window is what the single copy rests on: where the policy lets any work run there is a run in which a
      dispatcher dies between publishing and committing, the window passes, and the same message is stored again. */
  lemma SecondCopyAfterWindow(cfg: Config, environment: string) returns (steps: seq<Step>)
    requires environment in cfg.environments
    ensures StoredTwice(cfg, steps)
  {
    hide Run;
    steps := Reserved(cfg, environment);
    steps := PublishedAndLost(cfg, steps, []);
    DispatcherStep(cfg, steps, Tick(cfg.duplicateWindow));
    steps := steps + [Tick(cfg.duplicateWindow)];
    steps := PublishedAndLost(cfg, steps, [0]);
  }

  // ----- Without an enabled environment -----

  predicate NothingAllowed(t: Table) { forall rid :: rid in t ==> !t[rid].rem.allowed }

  lemma ForeignIsBlocked(cfg: Config, input: Policy.Input, proposer: string, key: string)
    requires cfg.environments == {}
    ensures !Propose(cfg, input, proposer, key).rem.allowed
  {
    Policy.PolicyGate(cfg.environments, input);
  }

  lemma {:induction false} NothingIsAllowed(cfg: Config, steps: seq<Step>)
    requires cfg.environments == {}
    ensures NothingAllowed(Run(cfg, steps).table)
  {
    if |steps| > 0 {
      hide Next, Propose, SystemInv;
      var n := |steps| - 1;
      var s := Run(cfg, steps[..n]);
      NothingIsAllowed(cfg, steps[..n]);
      RunHolds(cfg, steps[..n]);
      NextKeeps(cfg, s, steps[n]);
      forall rid | rid in Next(cfg, s, steps[n]).table ensures !Next(cfg, s, steps[n]).table[rid].rem.allowed {
        if rid !in s.table {
          NewRows(cfg, s, steps[n], rid);
          ForeignIsBlocked(cfg, steps[n].input, steps[n].proposer, steps[n].key);
        }
      }
    }
  }

  lemma StoredIsAllowed(cfg: Config, s: System, m: nat)
    requires SystemInv(cfg, s) && m < |s.stream|
    ensures s.stream[m].rid in s.table && s.table[s.stream[m].rid].rem.allowed
  {
    hide BatchesHold, WorkersHold, InvocationsHold, CallsHold, Gated, Budgeted, Audited;
    assert MessageHolds(s, s.stream[m]);
    assert Boxed(s.table[s.stream[m].rid]);
  }

  /** Without an enabled environment no message is ever stored. */
  lemma NothingIsStored(cfg: Config, steps: seq<Step>)
    requires cfg.environments == {}
    ensures Run(cfg, steps).stream == []
  {
    hide Run, SystemInv;
    RunHolds(cfg, steps);
    NothingIsAllowed(cfg, steps);
    if |Run(cfg, steps).stream| > 0 { StoredIsAllowed(cfg, Run(cfg, steps), 0); }
  }

  /** A message can be stored twice exactly where some environment is enabled. */
  lemma StoredTwiceExactlyWithAnEnvironment(cfg: Config)
    ensures (exists steps :: StoredTwice(cfg, steps)) <==> cfg.environments != {}
  {
    hide Run;
    if cfg.environments == {} {
      forall steps ensures !StoredTwice(cfg, steps) { NothingIsStored(cfg, steps); }
    } else {
      var environment :| environment in cfg.environments;
      var steps := SecondCopyAfterWindow(cfg, environment);
    }
  }
}
