/** What _drive_step needs to reach its end when nobody comes between (v5/live_loop.py:554-670). */
module Drivability {
  import opened Types
  import opened Safety
  import opened Execution
  import opened EvidencePipeline
  import opened Work
  import opened Invariants
  import opened Kernel
  import opened StalePlans
  import opened Confirming
  import opened Attempts
  import opened Endings
  import opened Records
  import opened Driving

  /** Verification v could be evaluated for the action, with a known method and an evaluator that is satisfied. */
  predicate Evaluable(d: Db, j: Job, satisfied: set<Id>, v: Id) {
    && v in d.verifications && v in satisfied
    && d.verifications[v].methodName in j.methodNames && d.verifications[v].result in {VPending, VRunning}
    && ClaimExists(d, d.verifications[v].verifies)
    && (d.verifications[v].stepId.Some? && j.action in d.actions ==>
          d.actions[j.action].stepId == d.verifications[v].stepId.value)
  }

  /** From the i-th binding on, those of the step are evaluable, none of them twice. */
  predicate BindingsReady(d: Db, j: Job, satisfied: set<Id>, i: nat) {
    && (forall k :: i <= k < |j.bindings| && j.bindings[k].0 == j.step ==> Evaluable(d, j, satisfied, j.bindings[k].1))
    && (forall k, m :: i <= k < m < |j.bindings| && j.bindings[k].0 == j.step && j.bindings[m].0 == j.step ==>
          j.bindings[k].1 != j.bindings[m].1)
  }

  /** The step is there and READY can be entered. */
  predicate Enterable(d: Db, step: Id) { step in d.steps && d.steps[step].status in {SPending, SBlocked} }

  /** All a drive of a value-returning capability needs of the store. */
  predicate Drivable(d: Db, j: Job, satisfied: set<Id>) {
    && Ready(d, j.action, APending, j.revision)
    && ServesActive(d, d.actions[j.action].stepId, j.plan)
    && BindingsReady(d, j, satisfied, 0)
    && Enterable(d, j.step)
  }

  // ------------------------------------------------------------------ executing

  /** The action is OBSERVED now; its step, the verifications, claims and steps are as they were. */
  predicate ObservedOnly(d: Db, d': Db, a: Id) {
    && d' == d.(next := d'.next, actions := d'.actions, observations := d'.observations, confirmations := d'.confirmations)
    && a in d.actions && a in d'.actions && d'.actions[a].status == AObserved && d'.actions[a].stepId == d.actions[a].stepId
  }

  lemma ExecutedTwoSteps(d: Db, j: Job, gate: Gate, raw: string)
    requires BeginTx(d, j.action, j.revision, Some(j.plan), gate).res.Ok?
    ensures var d1 := BeginTx(d, j.action, j.revision, Some(j.plan), gate).db;
            var r := EndTx(d1, Returned(j.action, j.revision, Some(j.plan), Value(raw)));
            && r.res.Ok? && r.res.made.Some? && ObservedOnly(d, r.db, j.action)
            && ObservedAs(r.db, j.action, raw, r.res.made.value)
  {
    hide BeginTx, MarkObservedTx, Answers, ServesActive;
    BeginCommitsIff(d, j.action, j.revision, Some(j.plan), gate);
    var d1 := BeginTx(d, j.action, j.revision, Some(j.plan), gate).db;
    SameServes(d, d1, d.actions[j.action].stepId, j.plan);
    ObserveCommitsIff(d1, j.action, j.revision + 1, raw, Some(j.plan));
  }

  lemma SameServes(d: Db, d': Db, step: Id, p: Id)
    requires d'.steps == d.steps && d'.plans == d.plans && d'.tasks == d.tasks
    ensures ServesActive(d', step, p) <==> ServesActive(d, step, p)
  {
  }

  lemma SameBindings(d: Db, d': Db, j: Job, satisfied: set<Id>, i: nat)
    requires d'.verifications == d.verifications && d'.claims == d.claims
    requires j.action in d.actions && j.action in d'.actions && d'.actions[j.action].stepId == d.actions[j.action].stepId
    ensures BindingsReady(d', j, satisfied, i) <==> BindingsReady(d, j, satisfied, i)
  {
    forall v ensures Evaluable(d', j, satisfied, v) <==> Evaluable(d, j, satisfied, v) {
      if v in d.verifications { SameExists(d, d', d.verifications[v].verifies); }
    }
  }

  lemma SameExists(d: Db, d': Db, claim: Id)
    requires d'.claims == d.claims
    ensures ClaimExists(d', claim) <==> ClaimExists(d, claim)
  {
  }

  // ------------------------------------------------------------------ verifying

  /** One bound verification evaluated for the OBSERVED action passes exactly when it is evaluable. */
  lemma EvaluationPasses(d: Db, j: Job, satisfied: set<Id>, v: Id, verdict: Verdict)
    requires j.action in d.actions && d.actions[j.action].status == AObserved
    requires v in d.verifications && d.verifications[v].methodName in j.methodNames && (verdict == Satisfied <==> v in satisfied)
    ensures var first := StartVerificationTx(d, v, Some(j.action));
            var last := FinishVerificationTx(first.db, v, Some(j.action), verdict);
            && (first.res.Ok? && last.res.Ok? && verdict == Satisfied <==> Evaluable(d, j, satisfied, v))
            && (first.res.Ok? && last.res.Ok? ==>
                  && last.db == d.(verifications := last.db.verifications) && v in last.db.verifications
                  && (last.db.verifications[v].result == VPass <==> verdict == Satisfied)
                  && last.db.verifications == d.verifications[v := d.verifications[v].(result := last.db.verifications[v].result)])
  {
    hide StartVerificationTx, FinishVerificationTx, ClaimExists;
    EvaluationBegins(d, v, Some(j.action));
    var d1 := StartVerificationTx(d, v, Some(j.action)).db;
    EvaluationEnds(d1, v, Some(j.action), verdict);
    SomeVersion(d, d.verifications[v].verifies);
  }

  /** Before and after the i-th binding passed, the same is left to ask for. */
  lemma BindingsNext(d: Db, d': Db, j: Job, satisfied: set<Id>, i: nat)
    requires i < |j.bindings| && j.bindings[i].0 == j.step && Evaluable(d, j, satisfied, j.bindings[i].1)
    requires d' == d.(verifications := d'.verifications)
    requires d'.verifications == d.verifications[j.bindings[i].1 := d.verifications[j.bindings[i].1].(result := VPass)]
    ensures BindingsReady(d', j, satisfied, i + 1) <==> BindingsReady(d, j, satisfied, i)
  {
    hide ClaimExists;
    var x := j.bindings[i].1;
    forall v | v != x ensures Evaluable(d', j, satisfied, v) <==> Evaluable(d, j, satisfied, v) {
      if v in d.verifications { SameExists(d, d', d.verifications[v].verifies); }
    }
    assert !Evaluable(d', j, satisfied, x);
  }

  lemma BindingsSkip(d: Db, j: Job, satisfied: set<Id>, i: nat)
    requires i < |j.bindings| && j.bindings[i].0 != j.step
    ensures BindingsReady(d, j, satisfied, i + 1) <==> BindingsReady(d, j, satisfied, i)
  {
  }

  lemma BindingsOver(d: Db, j: Job, satisfied: set<Id>, i: nat)
    requires i >= |j.bindings|
    ensures BindingsReady(d, j, satisfied, i)
  {
  }

  // ------------------------------------------------------------------ finishing the step

  /** No other work object goes by the step's id. */
  predicate Apart(d: Db, step: Id) { step !in d.goals && step !in d.tasks && step !in d.plans }

  lemma StepsApart(d: Db, step: Id)
    requires Inv(d) && step in d.steps
    ensures Apart(d, step)
  {
    hide Inv;
    OneKind(d, step);
  }

  /** READY, then EXECUTING, are committed exactly from an enterable step, which complete_step then completes. */
  lemma StepFinishes(d: Db, step: Id)
    requires step in d.steps && Apart(d, step)
    ensures var first := TransitionTx(d, step, OfStep(SReady), d.steps[step].revision);
            && (first.res.Ok? <==> Enterable(d, step))
            && (first.res.Ok? ==> Finishes(first.db, step, d.steps[step].revision))
  {
    hide TransitionTx, Moved;
    StepMoves(d, step, OfStep(SReady), d.steps[step].revision);
    if TransitionTx(d, step, OfStep(SReady), d.steps[step].revision).res.Ok? { ReadyFinishes(d, step, d.steps[step].revision); }
  }

  predicate Finishes(d: Db, step: Id, revision: nat) {
    var second := TransitionTx(d, step, OfStep(SExecuting), revision + 1);
    && step in d.steps && d.steps[step].revision == revision + 1 && second.res.Ok?
    && step in second.db.steps && second.db.steps[step].revision == revision + 2
    && var third := CompleteStepTx(second.db, step, revision + 2);
       third.res.Ok? && step in third.db.steps && third.db.steps[step].status == SCompleted
  }

  lemma FinishesMeans(d: Db, step: Id, revision: nat)
    requires Finishes(d, step, revision)
    ensures var second := TransitionTx(d, step, OfStep(SExecuting), revision + 1);
            && step in d.steps && d.steps[step].revision == revision + 1 && second.res.Ok?
            && var third := CompleteStepTx(second.db, step, revision + 2);
               step in third.db.steps && third.db.steps[step].status == SCompleted
  {
    hide TransitionTx, CompleteStepTx;
  }

  lemma ReadyFinishes(d: Db, step: Id, revision: nat)
    requires step in d.steps && Apart(d, step) && d.steps[step].revision == revision
    requires TransitionTx(d, step, OfStep(SReady), revision).db == Moved(d, step, OfStep(SReady))
    ensures Finishes(TransitionTx(d, step, OfStep(SReady), revision).db, step, revision)
  {
  }

  // ------------------------------------------------------------------ being turned away

  /** Where everything but the gate is in order, only the gate can refuse, and it says so. */
  lemma OnlyTheGate(d: Db, j: Job, gate: Gate)
    requires Ready(d, j.action, APending, j.revision) && ServesActive(d, d.actions[j.action].stepId, j.plan)
    ensures var r := BeginTx(d, j.action, j.revision, Some(j.plan), gate);
            r.res.Ok? || r == Reject(d, ConfirmationRequired)
  {
    hide GateOpens;
  }

  /** A confirmation that will be found: for the action as it stands, which is bound to no other, later than any other. */
  predicate WillOpen(d: Db, a: Id, capability: string, arguments: string, now: int) {
    && a in d.actions && d.actions[a].capability == capability && d.actions[a].arguments == arguments
    && d.actions[a].confirmationId.None?
    && forall k :: k in d.confirmations && d.confirmations[k].actionId == a && d.confirmations[k].confirmedAt.Some? ==>
         d.confirmations[k].confirmedAt.value < now
  }

  /** Staged and confirmed, it is what the query answers, and the gate opens. */
  lemma ConfirmationOpens(d: Db, d': Db, a: Id, capability: string, arguments: string, now: int, gate: Gate)
    requires WillOpen(d, a, capability, arguments, now) && Id(ConfirmationK, d.next) !in d.confirmations
    requires d' == d.(next := d'.next, confirmations := d.confirmations[Id(ConfirmationK, d.next) :=
                      Confirmation(a, d.actions[a].revision, capability, arguments, Some(now))])
    requires gate.ConfirmationGate? && QueryAnswer(d', a, gate.row)
    ensures Answers(d', a, gate.row)
  {
    var c := Id(ConfirmationK, d.next);
    assert c in d'.confirmations;
    assert gate.row == Some(c);
  }

  /** Staging and confirming leaves what a drive needs as it was. */
  lemma DrivableStill(d: Db, d': Db, j: Job, satisfied: set<Id>)
    requires d' == d.(next := d'.next, confirmations := d'.confirmations)
    ensures Drivable(d', j, satisfied) <==> Drivable(d, j, satisfied)
  {
    hide ServesActive, BindingsReady;
    if j.action in d.actions {
      SameServes(d, d', d.actions[j.action].stepId, j.plan);
      SameBindings(d, d', j, satisfied, 0);
    }
  }
}
