/** When a final verification result stays: run_verification refuses a final one, but its second transaction does not
    look at the result again. */
module Verdicts {
  import opened Types
  import opened EvidencePipeline
  import opened Execution
  import opened Work
  import opened Invariants
  import opened RowWrites
  import opened Acceptance
  import opened Frames
  import opened Kernel
  import opened RunProofs
  import opened RunTheorems
  import opened Theorems

  predicate FinalResult(r: VerificationResult) { r in {VPass, VFail, VInconclusive} }

  function ResultOf(verdict: Verdict): VerificationResult {
    match verdict
    case Satisfied => VPass
    case Violated => VFail
    case _ => VInconclusive
  }

  /** Some worker is between the two transactions of run_verification on v. */
  predicate UnderEvaluation(w: World, v: Id) {
    exists p :: p in w.workers && w.workers[p].Evaluating? && w.workers[p].verification == v
  }

  // --------------------------------------------------------------- a final row stays

  predicate RowKept(a: map<Id, Verification>, b: map<Id, Verification>, v: Id) { v in a && v in b && b[v] == a[v] }

  lemma AcceptanceKeepsRow(d: Db, c: WorkCall, v: Id)
    requires Inv(d) && v in d.verifications && c.CreatePlanWithSteps?
    ensures RowKept(d.verifications, Work.Apply(d, c).db.verifications, v)
  {
    hide Inv, AddsPlan, AllBound, CreatePlanWithStepsTx;
    if Work.Apply(d, c).res.Ok? { AcceptanceAddsExactly(d, c.registry, c.task, c.specs, c.expected); }
  }

  lemma WorkKeepsRow(d: Db, c: WorkCall, v: Id)
    requires Inv(d) && v in d.verifications
    ensures RowKept(d.verifications, Work.Apply(d, c).db.verifications, v)
  {
    hide Inv, CreateGoalTx, CreateTaskTx, CreatePlanTx, CreateStepTx, AddDependencyTx, CreatePlanWithStepsTx,
         ActivatePlanTx, SupersedePlanTx, BindTx, CompleteTx, TerminateTx, ArchiveTx, TransitionTx, CompleteStepTx, FreezeObjectTx;
    if c.CreatePlanWithSteps? { AcceptanceKeepsRow(d, c, v); }
  }

  lemma OtherRow(a: map<Id, Verification>, v: Id, other: Id, row: Verification)
    requires v in a && other != v
    ensures RowKept(a, a[other := row], v) && RowKept(a, a, v)
  {
  }

  lemma NewVerificationKeepsRow(d: Db, claim: Id, methodName: string, level: string, step: Option<Id>, v: Id)
    requires Inv(d) && v in d.verifications
    ensures RowKept(d.verifications, CreateVerificationTx(d, claim, methodName, level, step).db.verifications, v)
  {
    hide Inv, ClaimExists, RowKept;
    assert Id(VerificationK, d.next) != v by { MintedKeys(d); }
    OtherRow(d.verifications, v, Id(VerificationK, d.next), Verification(claim, methodName, level, VPending, step, false));
  }

  lemma EvidenceKeepsRow(d: Db, c: EvidenceCall, v: Id)
    requires Inv(d) && v in d.verifications
    ensures RowKept(d.verifications, EvidencePipeline.Apply(d, c).db.verifications, v)
  {
    hide Inv, InsertEvidence, CreateClaimTx, ReviseClaimTx, CreateVerificationTx, ClaimExists;
    match c
    case CreateVerification(i, m, l, s) => NewVerificationKeepsRow(d, i, m, l, s, v);
    case _ =>
  }

  lemma CallKeepsRow(d: Db, c: Call, v: Id)
    requires Inv(d) && v in d.verifications && !c.OfRepair?
    ensures RowKept(d.verifications, Perform(d, c).db.verifications, v)
  {
    hide Inv, Work.Apply, Execution.Apply, EvidencePipeline.Apply, Obligations.Apply, Safety.Apply;
    match c
    case OfWork(x) => WorkKeepsRow(d, x, v);
    case OfAction(x) => ActionFrame(d, x);
    case OfEvidence(x) => EvidenceKeepsRow(d, x, v);
    case _ =>
  }

  lemma StartKeepsRow(d: Db, v: Id, other: Id, action: Option<Id>)
    requires v in d.verifications && FinalResult(d.verifications[v].result)
    ensures RowKept(d.verifications, StartVerificationTx(d, other, action).db.verifications, v)
    ensures StartVerificationTx(d, other, action).res.Ok? ==> other != v
  {
    hide GateFault, RowKept;
    if other != v && other in d.verifications {
      OtherRow(d.verifications, v, other, SetResult(d, other, VRunning, false).verifications[other]);
    }
    assert RowKept(d.verifications, d.verifications, v) by { SameRow(d.verifications, v); }
  }

  lemma SameRow(a: map<Id, Verification>, v: Id)
    requires v in a
    ensures RowKept(a, a, v)
  {
  }

  lemma FinishKeepsRow(d: Db, v: Id, other: Id, action: Option<Id>, verdict: Verdict)
    requires v in d.verifications && other != v
    ensures RowKept(d.verifications, FinishVerificationTx(d, other, action, verdict).db.verifications, v)
  {
    hide GateFault, ClaimExists, RowKept;
    SameRow(d.verifications, v);
    if other in d.verifications {
      OtherRow(d.verifications, v, other, SetResult(d, other, ResultOf(verdict), action.None?).verifications[other]);
    }
  }

  lemma ActionsKeepRow(d: Db, c: Option<ActionCall>, v: Id)
    requires v in d.verifications
    ensures RowKept(d.verifications, Committed(d, c).verifications, v)
  {
    hide Execution.Apply;
    if c.Some? { ActionFrame(d, c.value); }
  }

  lemma StepKeepsFinal(w: World, l: Label, v: Id)
    requires Inv(w.db) && !IsRepair(l) && v in w.db.verifications && FinalResult(w.db.verifications[v].result)
    requires !UnderEvaluation(w, v)
    ensures RowKept(w.db.verifications, Next(w, l).db.verifications, v)
  {
    hide Inv, Next, Perform, Execution.Apply, StartVerificationTx, FinishVerificationTx, Committed;
    StepCommits(w, l);
    match l
    case Do(c) => CallKeepsRow(w.db, c, v);
    case VerifyStart(_, x, a) => StartKeepsRow(w.db, v, x, a);
    case VerifyEnd(p, verdict) =>
      if p in w.workers && w.workers[p].Evaluating? {
        FinishKeepsRow(w.db, v, w.workers[p].verification, w.workers[p].forAction, verdict);
      }
    case _ => ActionsKeepRow(w.db, Inner(w, l), v);
  }

  lemma NoNewEvaluation(w: World, l: Label, v: Id)
    requires v in w.db.verifications && FinalResult(w.db.verifications[v].result) && !UnderEvaluation(w, v)
    ensures !UnderEvaluation(Next(w, l), v)
  {
    hide Perform, BeginTx, EndTx, FreezeActionTx, MarkUnknownTx, StartVerificationTx, FinishVerificationTx, Classify;
    if l.VerifyStart? { StartKeepsRow(w.db, v, l.verification, l.forAction); }
  }

  lemma {:induction false} FinalStays(w: World, labels: seq<Label>, v: Id)
    requires Reachable(w) && RepairFree(labels)
    requires v in w.db.verifications && FinalResult(w.db.verifications[v].result) && !UnderEvaluation(w, v)
    ensures RowKept(w.db.verifications, Run(w, labels).db.verifications, v) && !UnderEvaluation(Run(w, labels), v)
    decreases |labels|
  {
    hide Inv, StartsOk, EffectsOk, WorkersOk, Reachable, Next, UnderEvaluation;
    if labels != [] {
      var before := labels[..|labels| - 1];
      FinalStays(w, before, v);
      Onward(w, before);
      ReachableOk(Run(w, before));
      StepKeepsFinal(Run(w, before), labels[|labels| - 1], v);
      NoNewEvaluation(Run(w, before), labels[|labels| - 1], v);
    }
  }

  // ------------------------------------------------- an accepted evaluation's gate stays open

  /** Every evaluation under way could commit now. */
  predicate EvaluationsStand(w: World) {
    forall p :: p in w.workers && w.workers[p].Evaluating? ==>
      && w.workers[p].verification in w.db.verifications
      && GateFault(w.db, w.db.verifications[w.workers[p].verification], w.workers[p].forAction).None?
  }

  lemma GateStaysOpen(d: Db, d': Db, v: Id, a: Option<Id>)
    requires v in d.verifications && GateFault(d, d.verifications[v], a).None?
    requires ActionsEvolve(d.actions, d'.actions) && ActionsForward(d.actions, d'.actions)
    requires VerificationsEvolve(d.verifications, d'.verifications)
    ensures v in d'.verifications && GateFault(d', d'.verifications[v], a).None?
  {
    assert VerificationStep(d.verifications[v], d'.verifications[v]);
    if a.Some? { assert ActionForward(d.actions[a.value], d'.actions[a.value]) && ActionStep(d.actions[a.value], d'.actions[a.value]); }
  }

  lemma StartOpensGate(d: Db, v: Id, a: Option<Id>)
    requires StartVerificationTx(d, v, a).res.Ok?
    ensures v in d.verifications && GateFault(d, d.verifications[v], a).None?
  {
  }

  /** A worker evaluating after a step was evaluating before it, or starts with it. */
  lemma WhoEvaluates(w: World, l: Label, p: nat)
    requires p in Next(w, l).workers && Next(w, l).workers[p].Evaluating?
    ensures (p in w.workers && w.workers[p] == Next(w, l).workers[p])
         || (l.VerifyStart? && Next(w, l).workers[p] == Evaluating(l.verification, l.forAction)
             && StartVerificationTx(w.db, l.verification, l.forAction).res.Ok?)
  {
    hide Perform, BeginTx, EndTx, FreezeActionTx, MarkUnknownTx, StartVerificationTx, FinishVerificationTx, Classify;
  }

  lemma StepEvaluationsStand(w: World, l: Label)
    requires StrictWorld(w) && !IsRepair(l) && EvaluationsStand(w)
    ensures EvaluationsStand(Next(w, l))
  {
    hide Inv, Strict, StartsOk, EffectsOk, WorkersOk, StartedOnce, Next, PointerForward, RetriesAccounted, GateFault,
         StartVerificationTx, Evolves;
    StepKeepsWorld(w, l);
    StepKeepsStrict(w, l);
    TablesOf(w.db, Next(w, l).db);
    forall p | p in Next(w, l).workers && Next(w, l).workers[p].Evaluating?
      ensures var e := Next(w, l).workers[p];
              && e.verification in Next(w, l).db.verifications
              && GateFault(Next(w, l).db, Next(w, l).db.verifications[e.verification], e.forAction).None?
    {
      var e := Next(w, l).workers[p];
      WhoEvaluates(w, l, p);
      if p !in w.workers || w.workers[p] != e { StartOpensGate(w.db, e.verification, e.forAction); }
      GateStaysOpen(w.db, Next(w, l).db, e.verification, e.forAction);
    }
  }

  lemma {:induction false} RunEvaluationsStand(labels: seq<Label>)
    requires RepairFree(labels)
    ensures EvaluationsStand(Run(BOOT, labels))
    decreases |labels|
  {
    hide StrictWorld, Next;
    if labels != [] {
      var before := labels[..|labels| - 1];
      RunEvaluationsStand(before);
      assert CleanlyReachable(Run(BOOT, before));
      CleanOk(Run(BOOT, before));
      StepEvaluationsStand(Run(BOOT, before), labels[|labels| - 1]);
    }
  }

  // ------------------------------------------------------------------------- theorems

  lemma FinishCommits(d: Db, v: Id, a: Option<Id>, verdict: Verdict)
    requires v in d.verifications && ClaimExists(d, d.verifications[v].verifies) && GateFault(d, d.verifications[v], a).None?
    ensures FinishVerificationTx(d, v, a, verdict) == Done(SetResult(d, v, ResultOf(verdict), a.None?))
  {
    hide ClaimExists, GateFault;
  }

  lemma VerifiedClaimExists(d: Db, v: Id)
    requires Inv(d) && v in d.verifications
    ensures ClaimExists(d, d.verifications[v].verifies)
  {
    hide Inv;
    InvHas(d, VerificationsSound);
    assert ClaimKey(d.verifications[v].verifies, 1) in d.claims;
  }

  /** A worker that got past the first transaction can still commit any verdict, whatever the result is by now. */
  lemma {:induction false} EvaluationCommits(w: World, p: nat, verdict: Verdict)
    requires CleanlyReachable(w) && p in w.workers && w.workers[p].Evaluating?
    ensures var v := w.workers[p].verification;
            v in Run(w, [VerifyEnd(p, verdict)]).db.verifications
            && Run(w, [VerifyEnd(p, verdict)]).db.verifications[v].result == ResultOf(verdict)
  {
    hide Inv, Strict, WorldOk, CleanlyReachable, Reachable, Run, GateFault, FinishVerificationTx, ClaimExists;
    CleanOk(w);
    Evaluations(w);
    VerifiedClaimExists(w.db, w.workers[p].verification);
    FinishCommits(w.db, w.workers[p].verification, w.workers[p].forAction, verdict);
    RunOne(w, VerifyEnd(p, verdict));
  }

  lemma Evaluations(w: World)
    requires CleanlyReachable(w)
    ensures EvaluationsStand(w)
  {
    hide Run;
    var labels :| RepairFree(labels) && w == Run(BOOT, labels);
    RunEvaluationsStand(labels);
  }

  /** The exact condition: without repair a final result stays for good if and only if nobody is evaluating the
      verification at the moment. */
  lemma {:induction false} FinalVerdictStays(w: World, v: Id)
    requires CleanlyReachable(w) && v in w.db.verifications && FinalResult(w.db.verifications[v].result)
    ensures (forall labels :: RepairFree(labels) ==>
               v in Run(w, labels).db.verifications
               && Run(w, labels).db.verifications[v].result == w.db.verifications[v].result)
       <==> !UnderEvaluation(w, v)
  {
    hide Inv, Strict, WorldOk, CleanlyReachable, Reachable, Run;
    CleanOk(w);
    if !UnderEvaluation(w, v) {
      forall labels | RepairFree(labels)
        ensures v in Run(w, labels).db.verifications
                && Run(w, labels).db.verifications[v].result == w.db.verifications[v].result
      {
        FinalStays(w, labels, v);
      }
    } else {
      var p :| p in w.workers && w.workers[p].Evaluating? && w.workers[p].verification == v;
      var verdict := if w.db.verifications[v].result == VPass then Violated else Satisfied;
      EvaluationCommits(w, p, verdict);
      assert RepairFree([VerifyEnd(p, verdict)]);
    }
  }

  lemma StartCommits(d: Db, v: Id, a: Option<Id>)
    requires v in d.verifications && d.verifications[v].result in {VPending, VRunning}
    requires GateFault(d, d.verifications[v], a).None?
    ensures StartVerificationTx(d, v, a) == Done(SetResult(d, v, VRunning, false))
  {
  }

  /** Two evaluations begun before either ended: the first verdict is final, and the second overwrites it. */
  lemma {:induction false} LaterVerdictOverwrites(w: World, v: Id, a: Option<Id>, p: nat, q: nat, first: Verdict, second: Verdict)
    requires Reachable(w) && p !in w.workers && q !in w.workers && p != q
    requires v in w.db.verifications && w.db.verifications[v].result == VPending
    requires GateFault(w.db, w.db.verifications[v], a).None?
    ensures var both := [VerifyStart(p, v, a), VerifyStart(q, v, a)];
            var d1, d2 := Run(w, both + [VerifyEnd(p, first)]).db,
                          Run(w, both + [VerifyEnd(p, first), VerifyEnd(q, second)]).db;
            && v in d1.verifications && d1.verifications[v].result == ResultOf(first) && FinalResult(ResultOf(first))
            && v in d2.verifications && d2.verifications[v].result == ResultOf(second)
  {
    hide Inv, StartsOk, EffectsOk, WorkersOk, Reachable, Run, FinishVerificationTx, StartVerificationTx, GateFault, ClaimExists,
         SetResult;
    ReachableOk(w);
    VerifiedClaimExists(w.db, v);
    var both := [VerifyStart(p, v, a), VerifyStart(q, v, a)];
    BothStart(w, v, a, p, q);
    OneEnds(Run(w, both), v, a, p, first);
    RunOne(Run(w, both), VerifyEnd(p, first));
    RunOn(w, both, [VerifyEnd(p, first)]);
    var w1 := Run(w, both + [VerifyEnd(p, first)]);
    OneEnds(w1, v, a, q, second);
    RunOne(w1, VerifyEnd(q, second));
    RunOn(w, both + [VerifyEnd(p, first)], [VerifyEnd(q, second)]);
    assert both + [VerifyEnd(p, first)] + [VerifyEnd(q, second)] == both + [VerifyEnd(p, first), VerifyEnd(q, second)];
  }

  /** v can be finished for a: it exists, its claim exists and its gate is open. */
  predicate Finishable(d: Db, v: Id, a: Option<Id>) {
    v in d.verifications && ClaimExists(d, d.verifications[v].verifies) && GateFault(d, d.verifications[v], a).None?
  }

  lemma ResultSet(d: Db, v: Id, a: Option<Id>, r: VerificationResult, ungated: bool)
    requires Finishable(d, v, a)
    ensures Finishable(SetResult(d, v, r, ungated), v, a) && SetResult(d, v, r, ungated).verifications[v].result == r
  {
  }

  lemma OneStarts(w: World, v: Id, a: Option<Id>, p: nat)
    requires p !in w.workers && Finishable(w.db, v, a) && w.db.verifications[v].result in {VPending, VRunning}
    ensures var w' := Next(w, VerifyStart(p, v, a));
            && Finishable(w'.db, v, a) && w'.db.verifications[v].result == VRunning
            && w'.workers == w.workers[p := Evaluating(v, a)]
  {
    hide StartVerificationTx, GateFault, ClaimExists, SetResult;
    StartCommits(w.db, v, a);
    ResultSet(w.db, v, a, VRunning, false);
  }

  lemma {:induction false} BothStart(w: World, v: Id, a: Option<Id>, p: nat, q: nat)
    requires p !in w.workers && q !in w.workers && p != q && Finishable(w.db, v, a)
    requires w.db.verifications[v].result == VPending
    ensures var w' := Run(w, [VerifyStart(p, v, a), VerifyStart(q, v, a)]);
            && Finishable(w'.db, v, a) && p in w'.workers && q in w'.workers
            && w'.workers[p] == Evaluating(v, a) && w'.workers[q] == Evaluating(v, a)
  {
    hide Run, Next, GateFault, ClaimExists;
    OneStarts(w, v, a, p);
    OneStarts(Next(w, VerifyStart(p, v, a)), v, a, q);
    RunTwo(w, VerifyStart(p, v, a), VerifyStart(q, v, a));
  }

  lemma OneEnds(w: World, v: Id, a: Option<Id>, p: nat, verdict: Verdict)
    requires p in w.workers && w.workers[p] == Evaluating(v, a) && Finishable(w.db, v, a)
    ensures var w' := Next(w, VerifyEnd(p, verdict));
            && Finishable(w'.db, v, a) && w'.db.verifications[v].result == ResultOf(verdict) && w'.workers == w.workers - {p}
  {
    hide FinishVerificationTx, GateFault, ClaimExists, SetResult;
    FinishCommits(w.db, v, a, verdict);
    ResultSet(w.db, v, a, ResultOf(verdict), a.None?);
  }

  /** The claim and the verification of the example. */
  const EXAMPLE_SETUP := [Do(OfEvidence(CreateClaim([], Unverified))),
                          Do(OfEvidence(CreateVerification(Id(ClaimK, 0), "check", "deterministic", None)))]

  /** The input: from the empty store, a claim, a verification, two evaluations of it, PASS by the first, FAIL by the
      second. */
  lemma OverwriteExample()
    ensures var w, v := Run(BOOT, EXAMPLE_SETUP), Id(VerificationK, 1);
            var both := [VerifyStart(0, v, None), VerifyStart(1, v, None)];
            var d1, d2 := Run(w, both + [VerifyEnd(0, Satisfied)]).db,
                          Run(w, both + [VerifyEnd(0, Satisfied), VerifyEnd(1, Violated)]).db;
            && v in d1.verifications && d1.verifications[v].result == VPass
            && v in d2.verifications && d2.verifications[v].result == VFail
  {
    hide Run, Next;
    var w := Run(BOOT, EXAMPLE_SETUP);
    ExampleSetUp();
    assert Reachable(w);
    LaterVerdictOverwrites(w, Id(VerificationK, 1), None, 0, 1, Satisfied, Violated);
  }

  lemma ExampleSetUp()
    ensures var w, v := Run(BOOT, EXAMPLE_SETUP), Id(VerificationK, 1);
            w.workers == map[] && v in w.db.verifications && w.db.verifications[v].result == VPending
  {
    hide Run;
    var first, second := EXAMPLE_SETUP[0], EXAMPLE_SETUP[1];
    RunTwo(BOOT, first, second);
    assert EXAMPLE_SETUP == [first, second];
    var w1 := Next(BOOT, first);
    assert ClaimKey(Id(ClaimK, 0), 1) in w1.db.claims;
    assert ClaimExists(w1.db, Id(ClaimK, 0));
  }
}
