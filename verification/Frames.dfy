/** Which tables each family of operations leaves alone. */
module Frames {
  import opened Types
  import opened Execution
  import opened EvidencePipeline
  import opened Work
  import opened Repair

  lemma WorkFrame(d: Db, c: WorkCall)
    ensures var r := Work.Apply(d, c).db;
            && r.actions == d.actions && r.observations == d.observations && r.evidence == d.evidence
            && r.confirmations == d.confirmations
  {
    hide CreateGoalTx, CreateTaskTx, CreatePlanTx, CreateStepTx, AddDependencyTx, CreatePlanWithStepsTx, ActivatePlanTx,
         SupersedePlanTx, BindTx, CompleteTx, TerminateTx, ArchiveTx, TransitionTx, CompleteStepTx, FreezeObjectTx;
  }

  lemma ActionFrame(d: Db, c: ActionCall)
    ensures var r := Execution.Apply(d, c).db;
            && r.goals == d.goals && r.plans == d.plans && r.steps == d.steps && r.evidence == d.evidence
            && r.claims == d.claims && r.verifications == d.verifications && r.required == d.required
            && r.confirmations == d.confirmations
  {
    hide CreateActionTx, BeginTx, MarkObservedTx, MarkUnknownTx, MarkFailedTx, CancelActionTx, RetryTx, FreezeActionTx;
  }

  lemma EvidenceFrame(d: Db, c: EvidenceCall)
    ensures var r := EvidencePipeline.Apply(d, c).db;
            && r.goals == d.goals && r.tasks == d.tasks && r.plans == d.plans && r.steps == d.steps
            && r.actions == d.actions && r.observations == d.observations && r.required == d.required
            && r.obligations == d.obligations && r.confirmations == d.confirmations
  {
    hide InsertEvidence, CreateClaimTx, ReviseClaimTx, CreateVerificationTx, ClaimExists;
  }

  lemma RepairFrame(d: Db, c: RepairCall)
    ensures var r := Repair.Apply(d, c).db;
            && r.observations == d.observations && r.evidence == d.evidence && r.claims == d.claims
            && r.required == d.required && r.confirmations == d.confirmations
  {
    hide RepairTx, AbandonUnrepairableTx;
  }
}
