/** All or nothing. A return inside a transaction commits whatever was written before it (v5/store.py:256-280), so a
    rejection is harmless only because no operation writes first. */
module Atomicity {
  import opened Types
  import opened Obligations
  import opened Safety
  import opened Execution
  import opened EvidencePipeline
  import opened Work
  import opened Repair
  import opened Kernel

  predicate Refused(r: Result) { r.Rejected? || r.Raised? || r.Noop? }

  lemma WorkRefusals(d: Db, c: WorkCall)
    requires Refused(Work.Apply(d, c).res)
    ensures Work.Apply(d, c).db == d
  {
    hide CompleteTx, TerminateTx, TransitionTx, ArchiveTx, CreatePlanWithStepsTx;
  }

  lemma ActionRefusals(d: Db, c: ActionCall)
    requires !Execution.Apply(d, c).res.Ok?
    ensures Execution.Apply(d, c).db == d
  {
    hide PlanMismatchReason, GateOpens, OwningTask;
  }

  lemma RepairRefusals(d: Db, c: RepairCall)
    requires Refused(Repair.Apply(d, c).res)
    ensures Repair.Apply(d, c).db == d
  {
    hide Settle, TaskAggregateOk, PlanAggregateOk, Observed;
  }

  lemma EvidenceRefusals(d: Db, c: EvidenceCall)
    requires Refused(EvidencePipeline.Apply(d, c).res)
    ensures EvidencePipeline.Apply(d, c).db == d
  {
    hide Cited, ClaimExists, Justified, MaxVersion, Versions;
  }

  /** Whatever the call and whatever the store, a call that does not commit leaves the store as it was. */
  lemma RefusalChangesNothing(d: Db, c: Call)
    requires Refused(Perform(d, c).res)
    ensures Perform(d, c).db == d
  {
    hide Work.Apply, Execution.Apply, EvidencePipeline.Apply, Repair.Apply, Concerns;
    match c
    case OfWork(x) => WorkRefusals(d, x);
    case OfAction(x) => ActionRefusals(d, x);
    case OfEvidence(x) => EvidenceRefusals(d, x);
    case OfRepair(x) => RepairRefusals(d, x);
    case _ =>
  }
}
