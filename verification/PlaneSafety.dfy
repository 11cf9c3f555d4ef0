/** What the theorems about runs say of the control plane's tables, after any sequence of calls. */
module PlaneSafety {
  import opened Catalog
  import opened RemediationStates
  import opened Records
  import opened RecordInvariants
  import opened Protocol
  import opened ProtocolInvariants
  import opened ProtocolTheorems
  import opened ControlPlane

  /** Every handler ever started was for diagnostics or for work properly approved, and not for cancelled work. */
  lemma HandlersWereApproved(p: Plane, i: nat)
    requires p.Valid() && i < |p.invocations|
    ensures var v := p.invocations[i];
            && v.rid in p.table && p.table[v.rid].rem.status != Cancelled
            && (v.snap.action != CollectDiagnostics ==>
                  p.table[v.rid].request.Some? && GoodApproval(p.cfg, v.snap.proposedBy, p.table[v.rid].request.value))
  {
    hide Run, SystemInv, GoodApproval;
    HandlersRunOnlyApproved(p.cfg, p.history, i);
    assert p.history[..|p.history|] == p.history;
    if p.table[p.invocations[i].rid].rem.status == Cancelled {
      CancelledNeverRuns(p.cfg, p.history, |p.history|, p.invocations[i].rid, i);
    }
  }

  /** Every row satisfies the record invariant, and work under way has a job that is not skipped. */
  lemma RowsStayConsistent(p: Plane, rid: RemId)
    requires p.Valid() && rid in p.table
    ensures Inv(p.cfg, p.table[rid])
    ensures Dispatchable(p.table[rid].rem.status) ==>
              |p.table[rid].outbox| > 0 && forall i :: 0 <= i < |p.table[rid].outbox| ==> p.table[rid].outbox[i].state != Skipped
  {
    hide Run, Inv;
    RunHolds(p.cfg, p.history);
    assert p.history[..|p.history|] == p.history;
    OutboxNeverStrandsWork(p.cfg, p.history, |p.history|, rid);
  }
}
