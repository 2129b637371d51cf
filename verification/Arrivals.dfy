/** A drive nobody disturbs arrives: from a drivable store, with a capability that returns, satisfied evaluators and an open
    gate, it reports COMPLETED and the step is (v5/live_loop.py:554-670). */
module Arrivals {
  import opened Types
  import opened Safety
  import opened Execution
  import opened EvidencePipeline
  import opened Work
  import opened Invariants
  import opened Kernel
  import opened RunProofs
  import opened RunTheorems
  import opened StalePlans
  import opened Confirming
  import opened Driving
  import opened Drivability

  /** The driver's turn when the outside cooperates. */
  function Good(row: Option<Id>, raw: string): Driving.Event { Turn(row, Value(raw), Satisfied, true) }

  predicate AllGood(events: seq<Driving.Event>, row: Option<Id>, raw: string) {
    forall i :: 0 <= i < |events| ==> events[i] == Good(row, raw)
  }

  lemma {:induction false} DriveOn(j: Job, p: nat, s: Drive, e: Driving.Event, rest: seq<Driving.Event>)
    ensures DriveRun(j, p, s, [e] + rest) == DriveRun(j, p, DriveNext(j, p, s, e), rest)
    decreases |rest|
  {
    hide DriveNext;
    var all := [e] + rest;
    if rest == [] {
      assert all[..|all| - 1] == [];
      assert DriveRun(j, p, s, []) == s;
    } else {
      assert all[..|all| - 1] == [e] + rest[..|rest| - 1];
      DriveOn(j, p, s, e, rest[..|rest| - 1]);
    }
  }

  /** The bound verifications, all satisfied. */
  function Bound(j: Job): set<Id> { set k | 0 <= k < |j.bindings| :: j.bindings[k].1 }

  ghost predicate Arrived(j: Job, s: Drive) { s.driver.DroveToEnd? && StatusOf(s.world.db, j.step) == Some(SCompleted) }

  lemma AllGoodMore(events: seq<Driving.Event>, row: Option<Id>, raw: string)
    requires AllGood(events, row, raw)
    ensures AllGood([Good(row, raw)] + events, row, raw)
  {
  }

  /** One more cooperative turn in front. */
  lemma Before(j: Job, p: nat, s: Drive, row: Option<Id>, raw: string, rest: seq<Driving.Event>) returns (events: seq<Driving.Event>)
    requires AllGood(rest, row, raw) && Arrived(j, DriveRun(j, p, DriveNext(j, p, s, Good(row, raw)), rest))
    ensures AllGood(events, row, raw) && Arrived(j, DriveRun(j, p, s, events))
  {
    hide DriveNext, Arrived, DriveRun;
    events := [Good(row, raw)] + rest;
    AllGoodMore(rest, row, raw);
    DriveOn(j, p, s, Good(row, raw), rest);
  }

  // ------------------------------------------------------------------ READY, EXECUTING, COMPLETED

  lemma FetchedTurns(j: Job, p: nat, s: Drive, t: Driving.Event)
    requires t.Turn? && s.driver.Fetching? && Inv(s.world.db) && Enterable(s.world.db, j.step)
    ensures Arrived(j, DriveNext(j, p, DriveNext(j, p, DriveNext(j, p, DriveNext(j, p, s, t), t), t), t))
  {
    hide Inv, DriveNext, Finishes, TransitionTx, CompleteStepTx;
    var r := s.world.db.steps[j.step].revision;
    StepsApart(s.world.db, j.step);
    StepFinishes(s.world.db, j.step);
    var s1 := DriveNext(j, p, s, t);
    FetchingNext(j, p, s, t);
    var s2 := DriveNext(j, p, s1, t);
    ReadyingNext(j, p, s1, t);
    var s3 := DriveNext(j, p, s2, t);
    assert Finishes(s2.world.db, j.step, r);
    FinishesMeans(s2.world.db, j.step, r);
    StartingNext(j, p, s2, t);
    CompletingNext(j, p, s3, t);
  }

  lemma FetchingNext(j: Job, p: nat, s: Drive, t: Driving.Event)
    requires t.Turn? && s.driver.Fetching? && j.step in s.world.db.steps
    ensures var s' := DriveNext(j, p, s, t);
            s'.world == s.world
            && s'.driver == Readying(s.driver.raw, s.driver.obs, s.driver.ev, s.world.db.steps[j.step].revision)
  {
    hide Passes, OnlyEvaluator, Next;
  }

  lemma ReadyingNext(j: Job, p: nat, s: Drive, t: Driving.Event)
    requires t.Turn? && s.driver.Readying? && TransitionTx(s.world.db, j.step, OfStep(SReady), s.driver.revision).res.Ok?
    ensures var s' := DriveNext(j, p, s, t);
            && s'.world.db == TransitionTx(s.world.db, j.step, OfStep(SReady), s.driver.revision).db
            && s'.driver == Starting(s.driver.raw, s.driver.obs, s.driver.ev, s.driver.revision + 1)
  {
    hide Passes, OnlyEvaluator, TransitionTx;
  }

  lemma StartingNext(j: Job, p: nat, s: Drive, t: Driving.Event)
    requires t.Turn? && s.driver.Starting? && TransitionTx(s.world.db, j.step, OfStep(SExecuting), s.driver.revision).res.Ok?
    ensures var s' := DriveNext(j, p, s, t);
            && s'.world.db == TransitionTx(s.world.db, j.step, OfStep(SExecuting), s.driver.revision).db
            && s'.driver == Completing(s.driver.raw, s.driver.obs, s.driver.ev, s.driver.revision + 1)
  {
    hide Passes, OnlyEvaluator, TransitionTx;
  }

  lemma FromFetching(j: Job, p: nat, s: Drive, row: Option<Id>, raw: string) returns (events: seq<Driving.Event>)
    requires s.driver.Fetching? && Inv(s.world.db) && Enterable(s.world.db, j.step)
    ensures AllGood(events, row, raw) && Arrived(j, DriveRun(j, p, s, events))
  {
    hide Inv, DriveNext, Arrived;
    var t := Good(row, raw);
    FetchedTurns(j, p, s, t);
    var s1 := DriveNext(j, p, s, t);
    var s2 := DriveNext(j, p, s1, t);
    var s3 := DriveNext(j, p, s2, t);
    assert DriveRun(j, p, DriveNext(j, p, s3, t), []) == DriveNext(j, p, s3, t);
    events := Before(j, p, s3, row, raw, []);
    events := Before(j, p, s2, row, raw, events);
    events := Before(j, p, s1, row, raw, events);
    events := Before(j, p, s, row, raw, events);
  }

  // ------------------------------------------------------------------ the bound verifications

  /** What is still needed once the action is OBSERVED. */
  predicate Underway(j: Job, d: Db, i: nat) {
    && j.action in d.actions && d.actions[j.action].status == AObserved
    && BindingsReady(d, j, Bound(j), i) && Enterable(d, j.step)
  }

  lemma VerifyingNext(j: Job, p: nat, s: Drive, t: Driving.Event)
    requires t.Turn? && s.driver.Verifying? && p !in s.world.workers && s.driver.i < |j.bindings|
    requires j.bindings[s.driver.i].0 == j.step && j.bindings[s.driver.i].1 in s.world.db.verifications
    requires s.world.db.verifications[j.bindings[s.driver.i].1].methodName in j.methodNames
    requires StartVerificationTx(s.world.db, j.bindings[s.driver.i].1, Some(j.action)).res.Ok?
    ensures var s', v := DriveNext(j, p, s, t), j.bindings[s.driver.i].1;
            && s'.world.db == StartVerificationTx(s.world.db, v, Some(j.action)).db
            && p in s'.world.workers && s'.world.workers[p] == Evaluating(v, Some(j.action))
            && s'.driver == Checking(s.driver.i, s.driver.raw, s.driver.obs, s.driver.ev)
  {
    hide Passes, OnlyEvaluator, StartVerificationTx;
  }

  lemma CheckingNext(j: Job, p: nat, s: Drive, t: Driving.Event)
    requires t.Turn? && s.driver.Checking? && s.driver.i < |j.bindings| && t.verdict == Satisfied
    requires p in s.world.workers && s.world.workers[p] == Evaluating(j.bindings[s.driver.i].1, Some(j.action))
    requires FinishVerificationTx(s.world.db, j.bindings[s.driver.i].1, Some(j.action), Satisfied).res.Ok?
    ensures var s' := DriveNext(j, p, s, t);
            && s'.world.db == FinishVerificationTx(s.world.db, j.bindings[s.driver.i].1, Some(j.action), Satisfied).db
            && p !in s'.world.workers
            && s'.driver == Verifying(s.driver.i + 1, s.driver.raw, s.driver.obs, s.driver.ev)
  {
    hide OnlyEvaluator, FinishVerificationTx;
  }

  lemma SkippingNext(j: Job, p: nat, s: Drive, t: Driving.Event)
    requires t.Turn? && s.driver.Verifying?
    ensures s.driver.i < |j.bindings| && j.bindings[s.driver.i].0 != j.step ==>
              DriveNext(j, p, s, t).world == s.world
              && DriveNext(j, p, s, t).driver == Verifying(s.driver.i + 1, s.driver.raw, s.driver.obs, s.driver.ev)
    ensures s.driver.i >= |j.bindings| ==>
              DriveNext(j, p, s, t).world == s.world
              && DriveNext(j, p, s, t).driver == Fetching(s.driver.raw, s.driver.obs, s.driver.ev)
  {
    hide Passes, OnlyEvaluator, StartVerificationTx, Next;
  }

  /** The two transactions of one bound verification. */
  lemma OneVerified(j: Job, p: nat, s: Drive, t: Driving.Event)
    requires t.Turn? && t.verdict == Satisfied && s.driver.Verifying? && p !in s.world.workers && s.driver.i < |j.bindings|
    requires Underway(j, s.world.db, s.driver.i) && j.bindings[s.driver.i].0 == j.step
    ensures var s2 := DriveNext(j, p, DriveNext(j, p, s, t), t);
            && s2.driver == Verifying(s.driver.i + 1, s.driver.raw, s.driver.obs, s.driver.ev) && p !in s2.world.workers
            && Underway(j, s2.world.db, s.driver.i + 1)
  {
    hide DriveNext, StartVerificationTx, FinishVerificationTx, BindingsReady;
    var i, d := s.driver.i, s.world.db;
    var v := j.bindings[i].1;
    assert v in Bound(j);
    NextEvaluable(j, d, i);
    EvaluationPasses(d, j, Bound(j), v, Satisfied);
    VerifyingNext(j, p, s, t);
    CheckingNext(j, p, DriveNext(j, p, s, t), t);
    BindingsNext(d, DriveNext(j, p, DriveNext(j, p, s, t), t).world.db, j, Bound(j), i);
  }

  lemma NextEvaluable(j: Job, d: Db, i: nat)
    requires BindingsReady(d, j, Bound(j), i) && i < |j.bindings| && j.bindings[i].0 == j.step
    ensures Evaluable(d, j, Bound(j), j.bindings[i].1)
  {
    hide Evaluable;
  }

  lemma {:induction false} FromVerifying(j: Job, p: nat, s: Drive, row: Option<Id>, raw: string) returns (events: seq<Driving.Event>)
    requires DriveOk(j, p, s) && s.driver.Verifying? && Underway(j, s.world.db, s.driver.i)
    ensures AllGood(events, row, raw) && Arrived(j, DriveRun(j, p, s, events))
    decreases |j.bindings| - s.driver.i
  {
    hide WorldOk, ProofHolds, CallsFit, DriveNext, DriveRun, Arrived, Underway;
    var t, i := Good(row, raw), s.driver.i;
    var s1 := DriveNext(j, p, s, t);
    TurnKeeps(j, p, s, t);
    if i >= |j.bindings| {
      SkippingNext(j, p, s, t);
      UnderwayEnters(j, s.world.db, i);
      InvOf(s1.world);
      events := FromFetching(j, p, s1, row, raw);
    } else if j.bindings[i].0 != j.step {
      SkippingNext(j, p, s, t);
      UnderwaySkips(j, s.world.db, i);
      events := FromVerifying(j, p, s1, row, raw);
    } else {
      TurnKeeps(j, p, s1, t);
      OneVerified(j, p, s, t);
      events := FromVerifying(j, p, DriveNext(j, p, s1, t), row, raw);
      events := Before(j, p, s1, row, raw, events);
    }
    events := Before(j, p, s, row, raw, events);
  }

  lemma InvOf(w: World)
    requires WorldOk(w)
    ensures Inv(w.db)
  {
  }

  lemma UnderwayEnters(j: Job, d: Db, i: nat)
    requires Underway(j, d, i)
    ensures Enterable(d, j.step)
  {
    hide BindingsReady;
  }

  lemma UnderwaySkips(j: Job, d: Db, i: nat)
    requires Underway(j, d, i) && i < |j.bindings| && j.bindings[i].0 != j.step
    ensures Underway(j, d, i + 1)
  {
    hide BindingsReady;
    BindingsSkip(d, j, Bound(j), i);
  }

  // ------------------------------------------------------------------ the execution

  lemma RecordingNext(j: Job, p: nat, s: Drive, t: Driving.Event)
    requires t.Turn? && s.driver.Recording? && s.driver.obs in s.world.db.observations
    ensures var s', d := DriveNext(j, p, s, t), s.world.db;
            && s'.driver.Verifying? && s'.driver.i == 0 && s'.world.db == d.(next := s'.world.db.next, evidence := s'.world.db.evidence)
  {
    hide Passes, OnlyEvaluator, EvidencePipeline.Apply;
    EvidenceRecords(s.world.db, s.driver.obs);
    RecordsOnlyEvidence(s.world.db, s.driver.obs);
  }

  lemma RecordsOnlyEvidence(d: Db, obs: Id)
    ensures var r := EvidencePipeline.Apply(d, RecordRuntime(obs)).db; r == d.(next := r.next, evidence := r.evidence)
  {
  }

  lemma BegunNext(j: Job, p: nat, s: Drive, t: Driving.Event)
    requires t.Turn? && s.driver.Attempting? && p !in s.world.workers
    requires BeginTx(s.world.db, j.action, j.revision, Some(j.plan), ConfirmationGate(j.required, t.row)).res.Ok?
    ensures var s' := DriveNext(j, p, s, t);
            && s'.driver == Begun(s.driver.again)
            && s'.world.db == BeginTx(s.world.db, j.action, j.revision, Some(j.plan), ConfirmationGate(j.required, t.row)).db
            && p in s'.world.workers && s'.world.workers[p] == Started(j.action, j.revision, Some(j.plan))
  {
    hide Passes, OnlyEvaluator, BeginTx, StartOf;
  }

  lemma CalledNext(j: Job, p: nat, s: Drive, t: Driving.Event)
    requires t.Turn? && s.driver.Begun?
    requires p in s.world.workers && s.world.workers[p] == Started(j.action, j.revision, Some(j.plan))
    ensures var s' := DriveNext(j, p, s, t);
            && s'.driver == Answered(s.driver.again, t.reply) && s'.world.db == s.world.db
            && p in s'.world.workers && s'.world.workers[p] == Returned(j.action, j.revision, Some(j.plan), t.reply)
  {
    hide Passes, OnlyEvaluator;
  }

  lemma AnsweredNext(j: Job, p: nat, s: Drive, t: Driving.Event)
    requires t.Turn? && s.driver.Answered? && s.driver.reply.Value?
    requires p in s.world.workers && s.world.workers[p] == Returned(j.action, j.revision, Some(j.plan), s.driver.reply)
    requires var r := EndTx(s.world.db, s.world.workers[p]); r.res.Ok? && r.res.made.Some?
    ensures var s', r := DriveNext(j, p, s, t), EndTx(s.world.db, s.world.workers[p]);
            s'.driver == Recording(s.driver.reply.raw, r.res.made.value) && s'.world.db == r.db
  {
    hide Passes, OnlyEvaluator, EndTx;
  }

  /** The gate lets the attempt through. */
  predicate GateLets(d: Db, j: Job, row: Option<Id>) { j.required ==> j.action in d.actions && Answers(d, j.action, row) }

  /** Three turns: begun, called, observed. */
  lemma Executes(j: Job, p: nat, s: Drive, row: Option<Id>, raw: string)
    requires s.driver.Attempting? && p !in s.world.workers
    requires Drivable(s.world.db, j, Bound(j)) && GateLets(s.world.db, j, row)
    ensures var t := Good(row, raw);
            var s3 := DriveNext(j, p, DriveNext(j, p, DriveNext(j, p, s, t), t), t);
            && s3.driver.Recording? && s3.driver.obs in s3.world.db.observations && Underway(j, s3.world.db, 0)
  {
    hide DriveNext, BeginTx, EndTx, BindingsReady, Answers, ServesActive;
    var t, d, gate := Good(row, raw), s.world.db, ConfirmationGate(j.required, row);
    BeginCommitsIff(d, j.action, j.revision, Some(j.plan), gate);
    BegunNext(j, p, s, t);
    var s1 := DriveNext(j, p, s, t);
    CalledNext(j, p, s1, t);
    ExecutedTwoSteps(d, j, gate, raw);
    var s2 := DriveNext(j, p, s1, t);
    AnsweredNext(j, p, s2, t);
    SameBindings(d, DriveNext(j, p, s2, t).world.db, j, Bound(j), 0);
  }

  lemma {:induction false} FromRecording(j: Job, p: nat, s: Drive, row: Option<Id>, raw: string) returns (events: seq<Driving.Event>)
    requires DriveOk(j, p, s) && s.driver.Recording? && s.driver.obs in s.world.db.observations && Underway(j, s.world.db, 0)
    ensures AllGood(events, row, raw) && Arrived(j, DriveRun(j, p, s, events))
  {
    hide WorldOk, ProofHolds, CallsFit, WorkerFits, DriveNext, DriveRun, Arrived, BindingsReady;
    var t := Good(row, raw);
    TurnKeeps(j, p, s, t);
    RecordingNext(j, p, s, t);
    SameBindings(s.world.db, DriveNext(j, p, s, t).world.db, j, Bound(j), 0);
    events := FromVerifying(j, p, DriveNext(j, p, s, t), row, raw);
    events := Before(j, p, s, row, raw, events);
  }

  // ------------------------------------------------------------------------- theorems

  lemma {:induction false} FromAttempting(j: Job, p: nat, s: Drive, row: Option<Id>, raw: string) returns (events: seq<Driving.Event>)
    requires DriveOk(j, p, s) && s.driver.Attempting?
    requires Drivable(s.world.db, j, Bound(j)) && GateLets(s.world.db, j, row)
    ensures AllGood(events, row, raw) && Arrived(j, DriveRun(j, p, s, events))
  {
    hide WorldOk, ProofHolds, CallsFit, DriveNext, DriveRun, Arrived, Drivable, GateLets, Underway;
    var t := Good(row, raw);
    var s1 := DriveNext(j, p, s, t);
    var s2 := DriveNext(j, p, s1, t);
    TurnKeeps(j, p, s, t);
    TurnKeeps(j, p, s1, t);
    TurnKeeps(j, p, s2, t);
    Executes(j, p, s, row, raw);
    events := FromRecording(j, p, DriveNext(j, p, s2, t), row, raw);
    events := Before(j, p, s2, row, raw, events);
    events := Before(j, p, s1, row, raw, events);
    events := Before(j, p, s, row, raw, events);
  }

  /** From any reachable store that is drivable, with the gate open where one is required: left alone, with a capability that
      returns and satisfied evaluators, the drive arrives, reporting COMPLETED with the step COMPLETED. */
  lemma {:induction false} UndisturbedDriveArrives(j: Job, p: nat, w: World, row: Option<Id>, raw: string)
    requires Reachable(w) && p !in w.workers && Drivable(w.db, j, Bound(j)) && GateLets(w.db, j, row)
    ensures exists events :: AllGood(events, row, raw) && Arrived(j, DriveRun(j, p, Fresh(w), events))
  {
    hide Inv, StartsOk, EffectsOk, WorkersOk, Reachable, DriveNext, Drivable, GateLets, Arrived, AllGood;
    ReachableOk(w);
    FreshOk(j, p, w);
    var events := FromAttempting(j, p, Fresh(w), row, raw);
  }

  // ------------------------------------------------------------------ with a confirmation on the way

  /** A required gate without answer turns the first attempt away, and the driver asks. */
  lemma AsksFirst(j: Job, p: nat, s: Drive, t: Driving.Event)
    requires t.Turn? && s.driver == Attempting(false) && p !in s.world.workers && j.required
    requires Drivable(s.world.db, j, Bound(j)) && !Answers(s.world.db, j.action, t.row)
    ensures DriveNext(j, p, s, t).driver == Asking && DriveNext(j, p, s, t).world == s.world
  {
    hide Passes, OnlyEvaluator, PlanMismatchReason, GateOpens, Answers, BindingsReady;
    GateAnswers(s.world.db, j.action, t.row);
    NoMismatch(s.world.db, j);
  }

  lemma NoMismatch(d: Db, j: Job)
    requires j.action in d.actions && ServesActive(d, d.actions[j.action].stepId, j.plan)
    ensures PlanMismatchReason(d, d.actions[j.action], j.plan).None?
  {
  }

  lemma ApprovedNext(j: Job, p: nat, s: Drive, t: Driving.Event)
    requires t.Turn? && s.driver.Asking? && t.approved
    ensures DriveNext(j, p, s, t).driver == Attempting(true) && DriveNext(j, p, s, t).world == s.world
  {
    hide Passes, OnlyEvaluator, Next;
  }

  lemma OthersCall(j: Job, p: nat, s: Drive, c: SafetyCall)
    ensures var s' := DriveNext(j, p, s, Other(Do(OfSafety(c))));
            s'.driver == s.driver && s'.world.db == Safety.Apply(s.world.db, c).db && s'.world.workers == s.world.workers
  {
    hide Safety.Apply;
  }

  /** The confirmation the host stages for the action as it stands, and its confirming. */
  function Stage(d: Db, a: Id): SafetyCall
    requires a in d.actions
  {
    CreateConfirmation(a, d.actions[a].revision, d.actions[a].capability, d.actions[a].arguments)
  }

  function AskingFor(d: Db, j: Job, row0: Option<Id>, raw: string, now: int): seq<Driving.Event>
    requires j.action in d.actions
  {
    [Good(row0, raw), Other(Do(OfSafety(Stage(d, j.action)))),
     Other(Do(OfSafety(Confirm(Id(ConfirmationK, d.next), now)))), Good(row0, raw)]
  }

  lemma StagedLets(d: Db, j: Job, now: int)
    requires Inv(d) && j.action in d.actions && d.actions[j.action].confirmationId.None? && NoneLater(d, j.action, now)
    ensures var d1 := Safety.Apply(d, Stage(d, j.action)).db;
            var d2 := Safety.Apply(d1, Confirm(Id(ConfirmationK, d.next), now)).db;
            && d2 == d.(next := d2.next, confirmations := d2.confirmations)
            && GateLets(d2, j, Some(Id(ConfirmationK, d.next)))
  {
    hide Inv, Safety.Apply, Answers, NoneLater;
    var a, c := j.action, Id(ConfirmationK, d.next);
    var x := d.actions[a];
    StagedRow(d, a, x.revision, x.capability, x.arguments);
    var d1 := Safety.Apply(d, Stage(d, a)).db;
    ConfirmedRow(d1, c, now);
    StagedAnswers(d, Safety.Apply(d1, Confirm(c, now)).db, a, c, Confirmation(a, x.revision, x.capability, x.arguments, Some(now)));
  }

  lemma {:induction false} DriveFour(j: Job, p: nat, s: Drive, a: Driving.Event, b: Driving.Event, c: Driving.Event, e: Driving.Event,
                  rest: seq<Driving.Event>)
    ensures DriveRun(j, p, s, [a, b, c, e] + rest)
         == DriveRun(j, p, DriveNext(j, p, DriveNext(j, p, DriveNext(j, p, DriveNext(j, p, s, a), b), c), e), rest)
  {
    hide DriveNext, DriveRun;
    var s1 := DriveNext(j, p, s, a);
    var s2 := DriveNext(j, p, s1, b);
    DriveOn(j, p, s, a, [b, c, e] + rest);
    assert [a] + ([b, c, e] + rest) == [a, b, c, e] + rest;
    DriveOn(j, p, s1, b, [c, e] + rest);
    assert [b] + ([c, e] + rest) == [b, c, e] + rest;
    DriveOn(j, p, s2, c, [e] + rest);
    assert [c] + ([e] + rest) == [c, e] + rest;
    DriveOn(j, p, DriveNext(j, p, s2, c), e, rest);
  }

  /** The confirmation flow: a drivable job whose required gate has no answer is turned away once, the host stages and
      confirms a row for the action as it stands, and the second attempt drives to the end. */
  lemma {:induction false} ConfirmedDriveArrives(j: Job, p: nat, w: World, row0: Option<Id>, raw: string, now: int)
    requires Reachable(w) && p !in w.workers && Drivable(w.db, j, Bound(j)) && j.required
    requires !Answers(w.db, j.action, row0)
    requires w.db.actions[j.action].confirmationId.None? && NoneLater(w.db, j.action, now)
    ensures exists events :: AllGood(events, Some(Id(ConfirmationK, w.db.next)), raw)
              && Arrived(j, DriveRun(j, p, Fresh(w), AskingFor(w.db, j, row0, raw, now) + events))
  {
    assert j.action in w.db.actions;
    hide Inv, StartsOk, EffectsOk, WorkersOk, Reachable, DriveNext, DriveRun, Drivable, GateLets, Arrived, AllGood, Answers,
         NoneLater, Fits, Safety.Apply;
    ReachableOk(w);
    FreshOk(j, p, w);
    var s, t := Fresh(w), Good(row0, raw);
    var stage := Stage(w.db, j.action);
    var confirm := Confirm(Id(ConfirmationK, w.db.next), now);
    AsksFirst(j, p, s, t);
    TurnKeeps(j, p, s, t);
    var s1 := DriveNext(j, p, s, t);
    OthersCall(j, p, s1, stage);
    OtherKeeps(j, p, s1, Do(OfSafety(stage)));
    var s2 := DriveNext(j, p, s1, Other(Do(OfSafety(stage))));
    OthersCall(j, p, s2, confirm);
    OtherKeeps(j, p, s2, Do(OfSafety(confirm)));
    var s3 := DriveNext(j, p, s2, Other(Do(OfSafety(confirm))));
    ApprovedNext(j, p, s3, t);
    TurnKeeps(j, p, s3, t);
    StagedLets(w.db, j, now);
    DrivableStill(w.db, s3.world.db, j, Bound(j));
    var events := FromAttempting(j, p, DriveNext(j, p, s3, t), Some(Id(ConfirmationK, w.db.next)), raw);
    DriveFour(j, p, s, t, Other(Do(OfSafety(stage))), Other(Do(OfSafety(confirm))), t, events);
  }

  lemma FreshOk(j: Job, p: nat, w: World)
    requires WorldOk(w) && p !in w.workers
    ensures DriveOk(j, p, Fresh(w))
  {
    hide Inv, StartsOk, EffectsOk, WorkersOk;
  }

  // ------------------------------------------------------------------ and where it does not

  /** The driver asks at most once: a second refusal, any other refusal, and a policy that declines each end the drive with
      their reason, and a verification that does not pass ends it before the step is touched. */
  lemma RefusalsEndTheDrive(j: Job, p: nat, s: Drive, t: Driving.Event)
    requires t.Turn?
    ensures var refused := BeginTx(s.world.db, j.action, j.revision, Some(j.plan), ConfirmationGate(j.required, t.row)).res;
            s.driver.Attempting? && refused.Rejected? ==>
              if refused.reason == ConfirmationRequired && s.driver == Attempting(false) && j.required
              then DriveNext(j, p, s, t).driver == Asking
              else DriveNext(j, p, s, t).driver == Halted(refused.reason)
    ensures s.driver.Asking? && !t.approved ==> DriveNext(j, p, s, t).driver == Halted(ConfirmationRequired)
    ensures s.driver.Checking? && s.driver.i < |j.bindings| && t.verdict != Satisfied ==>
              DriveNext(j, p, s, t).driver.Halted? || DriveNext(j, p, s, t).driver.Threw?
  {
    hide Passes, OnlyEvaluator, BeginTx, Next;
  }
}
