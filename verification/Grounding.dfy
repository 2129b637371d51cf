/** Emission is not occurrence: a PASS bound to a step, and so a completed task, rests on an
    Observation of an action of that step, in every run (repairs included). */
module Grounding {
  import opened Types
  import opened Graphs
  import opened Execution
  import opened EvidencePipeline
  import opened Work
  import opened Repair
  import opened Invariants
  import opened RowWrites
  import opened ExecutionProofs
  import opened Kernel
  import opened RunProofs
  import opened RunTheorems

  /** Verification v is only ever evaluated for an action, as run_method_for_action does. */
  predicate AlwaysGated(labels: seq<Label>, v: Id) {
    forall i :: 0 <= i < |labels| && labels[i].VerifyStart? && labels[i].verification == v ==> labels[i].forAction.Some?
  }

  ghost predicate NotUngated(w: World, v: Id) {
    && (v in w.db.verifications ==> !w.db.verifications[v].ungated)
    && forall p :: p in w.workers && w.workers[p].Evaluating? && w.workers[p].verification == v ==>
         w.workers[p].forAction.Some?
  }

  lemma {:induction false} GatedRunsStayGated(labels: seq<Label>, v: Id)
    requires AlwaysGated(labels, v)
    ensures NotUngated(Run(BOOT, labels), v)
    decreases |labels|
  {
    hide Next;
    if labels != [] {
      GatedRunsStayGated(labels[..|labels| - 1], v);
      GatedStep(Run(BOOT, labels[..|labels| - 1]), labels[|labels| - 1], v);
    }
  }

  /** No verification became ungated. */
  predicate GatesKept(a: map<Id, Verification>, b: map<Id, Verification>) {
    forall v :: v in b && b[v].ungated ==> v in a && a[v].ungated
  }

  lemma {:induction false} AcceptedGates(d: Db, task: Id, step: Id, reqs: seq<Requirement>, k: nat)
    requires k <= |reqs|
    ensures GatesKept(d.verifications, AcceptRequirements(d, task, step, reqs, k).verifications)
  {
    if k > 0 { AcceptedGates(d, task, step, reqs, k - 1); }
  }

  lemma {:induction false} AcceptedStepGates(d: Db, task: Id, plan: Id, base: nat, graph: Graph, specs: seq<StepSpec>, k: nat)
    requires k <= |specs|
    ensures GatesKept(d.verifications, AcceptSteps(d, task, plan, base, graph, specs, k).verifications)
  {
    hide AcceptRequirements, NewStep;
    if k > 0 {
      AcceptedStepGates(d, task, plan, base, graph, specs, k - 1);
      var before := AcceptSteps(d, task, plan, base, graph, specs, k - 1);
      var id := StepId(base, k - 1);
      AcceptedGates(before.(steps := before.steps[id := NewStep(plan, graph, id, specs[k - 1])]), task, id,
                    specs[k - 1].requirements, |specs[k - 1].requirements|);
    }
  }

  lemma WorkGates(d: Db, c: WorkCall)
    ensures GatesKept(d.verifications, Work.Apply(d, c).db.verifications)
  {
    hide AcceptSteps, ProposalFault, Acyclic, GatesKept, CreateGoalTx, CreateTaskTx, CreatePlanTx, CreateStepTx, AddDependencyTx,
         ActivatePlanTx, SupersedePlanTx, BindTx, CompleteTx, TerminateTx, ArchiveTx, TransitionTx, CompleteStepTx, FreezeObjectTx;
    Same(d.verifications);
    match c
    case CreatePlanWithSteps(reg, t, specs, e) =>
      AcceptedStepGates(WithPlan(d, t, specs), t, Id(PlanK, d.next), d.next + 1, ProposalGraph(d.next + 1, specs), specs, |specs|);
    case _ =>
  }

  lemma RepairGates(d: Db, c: RepairCall)
    ensures GatesKept(d.verifications, Repair.Apply(d, c).db.verifications)
  {
    hide Settle, TaskAggregateOk, PlanAggregateOk, Observed, GatesKept, FixGoal, FixTask, FixPlan, FixStep, FixAction,
         RepairRecordTx, AbandonUnrepairableTx, Load;
    Same(d.verifications);
    match c
    case RepairObject(id, e, t, _) =>
      if id in d.verifications { ResultGates(d.verifications, id, t); }
      assert GatesKept(d.verifications, RepairRecordTx(d, id, e, t).db.verifications);
    case _ =>
  }

  lemma ResultGates(a: map<Id, Verification>, v: Id, t: Target)
    requires v in a
    ensures t.VerificationFix? ==> GatesKept(a, a[v := a[v].(result := Or(t.vResult, a[v].result))])
  {
  }

  lemma EvidenceGates(d: Db, c: EvidenceCall)
    ensures GatesKept(d.verifications, EvidencePipeline.Apply(d, c).db.verifications)
  {
    hide Cited, Justified, ClaimExists, MaxVersion, Versions, GatesKept;
    Same(d.verifications);
    if c.CreateVerification? {
      NewGates(d.verifications, Id(VerificationK, d.next), Verification(c.claim, c.methodName, c.level, VPending, c.step, false));
    }
  }

  lemma NewGates(a: map<Id, Verification>, id: Id, v: Verification)
    ensures !v.ungated ==> GatesKept(a, a[id := v])
  {
  }

  lemma ActionGates(d: Db, c: ActionCall)
    ensures Execution.Apply(d, c).db.verifications == d.verifications
  {
    hide CreateActionTx, BeginTx, MarkObservedTx, MarkUnknownTx, MarkFailedTx, CancelActionTx, RetryTx, FreezeActionTx;
  }

  lemma CallGates(d: Db, c: Call)
    ensures GatesKept(d.verifications, Perform(d, c).db.verifications)
  {
    hide GatesKept, Work.Apply, Execution.Apply, EvidencePipeline.Apply, Repair.Apply, Obligations.Apply, Safety.Apply;
    match c
    case OfWork(x) => WorkGates(d, x);
    case OfAction(x) => ActionGates(d, x); Same(d.verifications);
    case OfEvidence(x) => EvidenceGates(d, x);
    case OfRepair(x) => RepairGates(d, x);
    case _ => Same(d.verifications);
  }

  lemma Same(a: map<Id, Verification>)
    ensures GatesKept(a, a)
  {
  }

  predicate Ungated(d: Db, v: Id) { v in d.verifications && d.verifications[v].ungated }

  lemma InnerGates(d: Db, c: Option<ActionCall>)
    ensures Committed(d, c).verifications == d.verifications
  {
    hide Execution.Apply;
    if c.Some? { ActionGates(d, c.value); }
  }

  lemma StartGates(d: Db, x: Id, a: Option<Id>, v: Id)
    requires Ungated(StartVerificationTx(d, x, a).db, v)
    ensures Ungated(d, v)
  {
    hide GateFault;
  }

  lemma FinishGates(d: Db, x: Id, a: Option<Id>, verdict: Verdict, v: Id)
    requires Ungated(FinishVerificationTx(d, x, a, verdict).db, v)
    ensures v in d.verifications && (Ungated(d, v) || (x == v && a.None?))
  {
    hide GateFault, ClaimExists;
  }

  /** Worker p is about to commit a verdict on v without an action. */
  predicate EvaluatesUngated(w: World, p: nat, v: Id) {
    p in w.workers && w.workers[p].Evaluating? && w.workers[p].verification == v && w.workers[p].forAction.None?
  }

  lemma StepGates(w: World, l: Label, v: Id)
    requires Ungated(Next(w, l).db, v)
    ensures v in w.db.verifications && (Ungated(w.db, v) || (l.VerifyEnd? && EvaluatesUngated(w, l.worker, v)))
  {
    hide Next, Perform, Committed, StartVerificationTx, FinishVerificationTx;
    StepCommits(w, l);
    match l
    case Do(c) => CallGates(w.db, c);
    case VerifyStart(_, x, a) => if Next(w, l).db != w.db { StartGates(w.db, x, a, v); }
    case VerifyEnd(p, verdict) =>
      if p in w.workers && w.workers[p].Evaluating? {
        FinishGates(w.db, w.workers[p].verification, w.workers[p].forAction, verdict, v);
      }
    case _ => InnerGates(w.db, Inner(w, l));
  }

  lemma GatedStep(w: World, l: Label, v: Id)
    requires NotUngated(w, v) && (l.VerifyStart? && l.verification == v ==> l.forAction.Some?)
    ensures NotUngated(Next(w, l), v)
  {
    hide Perform, BeginTx, MarkObservedTx, MarkUnknownTx, MarkFailedTx, FreezeActionTx, StartVerificationTx,
         FinishVerificationTx, Classify;
    if Ungated(Next(w, l).db, v) { StepGates(w, l, v); }
  }

  /** A step-bound PASS has an Observation of an action of its step. */
  lemma {:induction false} StepBoundPassObserved(labels: seq<Label>, v: Id)
    requires AlwaysGated(labels, v)
    ensures var d := Run(BOOT, labels).db;
            v in d.verifications && d.verifications[v].result == VPass && d.verifications[v].stepId.Some? ==>
              StepObserved(d.actions, d.observations, d.verifications[v].stepId.value)
  {
    hide Inv, Run, StartsOk, EffectsOk, WorldOk, StepObserved;
    var w := Run(BOOT, labels);
    ReachableOk(w);
    EvidenceFacts(w.db);
    GatedRunsStayGated(labels, v);
  }

  /** A task or goal commits COMPLETED only when each of its required step-bound verifications, always evaluated
      for an action, passed and its step's effect was observed. */
  lemma {:induction false} CompletionIsObserved(labels: seq<Label>, obj: Id, expected: nat, criterion: bool, v: Id)
    requires AlwaysGated(labels, v) && (obj, v) in Run(BOOT, labels).db.required
    requires CompleteTx(Run(BOOT, labels).db, obj, expected, criterion).res.Ok?
    ensures var d := Run(BOOT, labels).db;
            && v in d.verifications && d.verifications[v].result == VPass
            && (d.verifications[v].stepId.Some? ==>
                  StepObserved(d.actions, d.observations, d.verifications[v].stepId.value))
  {
    hide Run, StepObserved, EvaluateCompletion, TaskChildren, GoalChildren, StepsDone, TasksDone;
    StepBoundPassObserved(labels, v);
  }

  /** The gate is what the law rests on: where no Observation of its step exists, evaluating a verification for an
      action is refused in both transactions, whatever the action. */
  lemma GateRefuses(d: Db, v: Id, action: Id, verdict: Verdict)
    requires Inv(d) && v in d.verifications && d.verifications[v].stepId.Some?
    requires !StepObserved(d.actions, d.observations, d.verifications[v].stepId.value)
    ensures !StartVerificationTx(d, v, Some(action)).res.Ok? && !FinishVerificationTx(d, v, Some(action), verdict).res.Ok?
  {
    hide Inv, StepObserved, ClaimExists;
    if action in d.actions && d.actions[action].status == AObserved { ObservedGrounds(d, action); }
  }

  /** Without an action nothing is asked: any unfinished verification, step-bound or not, commits PASS when the
      evaluator says so, and stays marked as ungated. */
  lemma UngatedPasses(d: Db, v: Id)
    requires Inv(d) && v in d.verifications && d.verifications[v].result in {VPending, VRunning}
    ensures StartVerificationTx(d, v, None) == Done(SetResult(d, v, VRunning, false))
    ensures FinishVerificationTx(SetResult(d, v, VRunning, false), v, None, Satisfied)
         == Done(SetResult(SetResult(d, v, VRunning, false), v, VPass, true))
  {
    hide Inv;
    assert ClaimKey(d.verifications[v].verifies, 1) in d.claims by { InvHas(d, VerificationsSound); }
    assert ClaimExists(d, d.verifications[v].verifies);
  }
}
