/** _drive_step among everybody else (v5/live_loop.py:554-670): its transactions one by one as one worker of the kernel,
    with any labels of others, crashes and repairs included, between any two of them. */
module Driving {
  import opened Types
  import opened Execution
  import opened EvidencePipeline
  import opened Work
  import opened Invariants
  import opened RowWrites
  import opened Kernel
  import opened RunProofs
  import opened RunTheorems
  import opened Theorems
  import opened Verdicts

  /** The step to drive, its action as proposed, and the bindings (step, verification) of the plan. */
  datatype Job = Job(plan: Id, step: Id, action: Id, revision: nat, required: bool, bindings: seq<(Id, Id)>,
                     methodNames: set<string>)

  /** What _drive_step keeps between two transactions. */
  datatype Driver =
    | Attempting(again: bool)
    | Begun(again: bool)
    | Answered(again: bool, reply: Reply)
    | Asking
    | Recording(raw: string, obs: Id)
    | Verifying(i: nat, raw: string, obs: Id, ev: Id)
    | Checking(i: nat, raw: string, obs: Id, ev: Id)
    | Fetching(raw: string, obs: Id, ev: Id)
    | Readying(raw: string, obs: Id, ev: Id, revision: nat)
    | Starting(raw: string, obs: Id, ev: Id, revision: nat)
    | Completing(raw: string, obs: Id, ev: Id, revision: nat)
    | DroveToEnd(raw: string, obs: Id, ev: Id)
    | EndedOtherwise
    | Halted(reason: Reason)
    | Threw
    | Died

  /** The world, the driver, how often the driver called the capability, the verifications it saw PASS, and those of them
      that nobody else was evaluating at that moment. */
  datatype Drive = Drive(world: World, driver: Driver, calls: nat, passed: set<Id>, sole: set<Id>)

  /** Somebody else's step, or the driver's next one with what the outside answers it: the gate's row, the capability, the
      evaluator, the confirmation policy. What a policy writes is somebody else's step. */
  datatype Event =
    | Other(theirs: Label)
    | Turn(row: Option<Id>, reply: Reply, verdict: Verdict, approved: bool)

  function WorkerOf(l: Label): Option<nat> {
    match l
    case Do(_) => None
    case Crash => None
    case _ => Some(l.worker)
  }

  predicate Foreign(e: Event, p: nat) { e.Other? ==> WorkerOf(e.theirs) != Some(p) }

  // ------------------------------------------------------------------------ the driver

  /** The kernel label of the driver's next turn; None when it only reads. */
  function LabelOf(j: Job, p: nat, s: Drive, t: Event): Option<Label>
    requires t.Turn?
  {
    match s.driver
    case Attempting(_) => Some(ExecuteBegin(p, j.action, j.revision, Some(j.plan), ConfirmationGate(j.required, t.row)))
    case Begun(_) => Some(ExecuteEffect(p, t.reply))
    case Answered(_, _) => Some(ExecuteEnd(p))
    case Recording(_, obs) => Some(Do(OfEvidence(RecordRuntime(obs))))
    case Verifying(i, _, _, _) =>
      if i < |j.bindings| && j.bindings[i].0 == j.step && j.bindings[i].1 in s.world.db.verifications
         && s.world.db.verifications[j.bindings[i].1].methodName in j.methodNames
      then Some(VerifyStart(p, j.bindings[i].1, Some(j.action)))
      else None
    case Checking(_, _, _, _) => Some(VerifyEnd(p, t.verdict))
    case Readying(_, _, _, r) => Some(Do(OfWork(Transition(j.step, OfStep(SReady), r))))
    case Starting(_, _, _, r) => Some(Do(OfWork(Transition(j.step, OfStep(SExecuting), r))))
    case Completing(_, _, _, r) => Some(Do(OfWork(CompleteStep(j.step, r))))
    case _ => None
  }

  /** A rejected attempt: the first refusal for want of a confirmation goes to the policy, any other halts. */
  function Refused(j: Job, again: bool, r: Result): Driver {
    if r.Rejected? then
      if !again && j.required && r.reason == ConfirmationRequired then Asking else Halted(r.reason)
    else Threw
  }

  /** Where the driver stands after its turn. */
  ghost function Turned(j: Job, p: nat, s: Drive, t: Event): Driver
    requires t.Turn?
  {
    var d := s.world.db;
    match s.driver
    case Attempting(again) =>
      var tx := BeginTx(d, j.action, j.revision, Some(j.plan), ConfirmationGate(j.required, t.row));
      if tx.res.Ok? then Begun(again) else Refused(j, again, tx.res)
    case Begun(again) => Answered(again, t.reply)
    case Answered(again, reply) =>
      var tx := EndTx(d, Returned(j.action, j.revision, Some(j.plan), reply));
      if !tx.res.Ok? then Refused(j, again, tx.res)
      else if reply.Value? && tx.res.made.Some? then Recording(reply.raw, tx.res.made.value)
      else EndedOtherwise
    case Asking => if t.approved then Attempting(true) else Halted(ConfirmationRequired)
    case Recording(raw, obs) =>
      var tx := EvidencePipeline.Apply(d, RecordRuntime(obs));
      if tx.res.Ok? && tx.res.made.Some? then Verifying(0, raw, obs, tx.res.made.value) else Threw
    case Verifying(i, raw, obs, ev) =>
      if i >= |j.bindings| then Fetching(raw, obs, ev)
      else if j.bindings[i].0 != j.step then Verifying(i + 1, raw, obs, ev)
      else if j.bindings[i].1 !in d.verifications then Halted(NotFound)
      else if d.verifications[j.bindings[i].1].methodName !in j.methodNames then Halted(UnknownMethod)
      else
        var tx := StartVerificationTx(d, j.bindings[i].1, Some(j.action));
        if tx.res.Ok? then Checking(i, raw, obs, ev)
        else if tx.res.Rejected? then Halted(tx.res.reason)
        else Threw
    case Checking(i, raw, obs, ev) =>
      if i >= |j.bindings| then Threw
      else
        var tx := FinishVerificationTx(d, j.bindings[i].1, Some(j.action), t.verdict);
        if tx.res.Ok? then
          if ResultOf(t.verdict) == VPass then Verifying(i + 1, raw, obs, ev) else Halted(VerificationNotPass)
        else if tx.res.Rejected? then Halted(tx.res.reason)
        else Threw
    case Fetching(raw, obs, ev) =>
      if j.step in d.steps then Readying(raw, obs, ev, d.steps[j.step].revision) else Threw
    case Readying(raw, obs, ev, r) =>
      if TransitionTx(d, j.step, OfStep(SReady), r).res.Ok? then Starting(raw, obs, ev, r + 1) else Threw
    case Starting(raw, obs, ev, r) =>
      if TransitionTx(d, j.step, OfStep(SExecuting), r).res.Ok? then Completing(raw, obs, ev, r + 1) else Threw
    // the answer of complete_step is not looked at
    case Completing(raw, obs, ev, _) => DroveToEnd(raw, obs, ev)
    case _ => s.driver
  }

  /** The verification the driver sees PASS at this turn, if any. */
  ghost predicate Passes(j: Job, s: Drive, t: Event, v: Id) {
    && t.Turn? && s.driver.Checking? && s.driver.i < |j.bindings| && v == j.bindings[s.driver.i].1
    && t.verdict == Satisfied && FinishVerificationTx(s.world.db, v, Some(j.action), t.verdict).res.Ok?
  }

  predicate OnlyEvaluator(w: World, p: nat, v: Id) {
    forall q :: q in w.workers && w.workers[q].Evaluating? && w.workers[q].verification == v ==> q == p
  }

  ghost function DriveNext(j: Job, p: nat, s: Drive, e: Event): Drive {
    match e
    case Other(l) => s.(world := Next(s.world, l), driver := if l.Crash? && !Finished(s.driver) then Died else s.driver)
    case Turn(_, _, verdict, _) =>
      var now := if s.driver.Checking? && s.driver.i < |j.bindings| && Passes(j, s, e, j.bindings[s.driver.i].1)
                 then {j.bindings[s.driver.i].1} else {};
      Drive(if LabelOf(j, p, s, e).Some? then Next(s.world, LabelOf(j, p, s, e).value) else s.world,
            Turned(j, p, s, e),
            s.calls + if s.driver.Begun? then 1 else 0,
            s.passed + now,
            s.sole + set v | v in now && OnlyEvaluator(s.world, p, v))
  }

  predicate Finished(d: Driver) { d.DroveToEnd? || d.EndedOtherwise? || d.Halted? || d.Threw? || d.Died? }

  ghost function DriveRun(j: Job, p: nat, s: Drive, events: seq<Event>): Drive
    decreases |events|
  {
    if events == [] then s else DriveNext(j, p, DriveRun(j, p, s, events[..|events| - 1]), events[|events| - 1])
  }

  function Fresh(w: World): Drive { Drive(w, Attempting(false), 0, {}, {}) }

  predicate AllForeign(events: seq<Event>, p: nat) { forall i :: 0 <= i < |events| ==> Foreign(events[i], p) }

  // ---------------------------------------------------------------- a drive is a run

  /** The kernel labels of one event. */
  function Labels(j: Job, p: nat, s: Drive, e: Event): seq<Label> {
    match e
    case Other(l) => [l]
    case Turn(_, _, _, _) => if LabelOf(j, p, s, e).Some? then [LabelOf(j, p, s, e).value] else []
  }

  lemma EventIsARun(j: Job, p: nat, s: Drive, e: Event)
    ensures DriveNext(j, p, s, e).world == Run(s.world, Labels(j, p, s, e))
    ensures (e.Other? ==> !IsRepair(e.theirs)) ==> RepairFree(Labels(j, p, s, e))
  {
    hide Next, Run, Turned, Passes, OnlyEvaluator;
    RunNone(s.world);
    if e.Other? {
      RunOne(s.world, e.theirs);
    } else if LabelOf(j, p, s, e).Some? {
      RunOne(s.world, LabelOf(j, p, s, e).value);
    }
  }

  lemma {:induction false} RunNone(w: World)
    ensures Run(w, []) == w
  {
  }

  predicate OthersRepairFree(events: seq<Event>) {
    forall i :: 0 <= i < |events| && events[i].Other? ==> !IsRepair(events[i].theirs)
  }

  /** Whatever a drive and the others do is a run of the kernel: every law over runs holds of it. */
  lemma {:induction false} DriveIsARun(j: Job, p: nat, s: Drive, events: seq<Event>) returns (labels: seq<Label>)
    ensures DriveRun(j, p, s, events).world == Run(s.world, labels)
    ensures OthersRepairFree(events) ==> RepairFree(labels)
    decreases |events|
  {
    hide Run, DriveNext, Labels;
    if events == [] {
      labels := [];
      RunNone(s.world);
    } else {
      var before := events[..|events| - 1];
      var e, at := events[|events| - 1], DriveRun(j, p, s, before);
      var first := DriveIsARun(j, p, s, before);
      EventIsARun(j, p, at, e);
      RunOn(s.world, first, Labels(j, p, at, e));
      labels := first + Labels(j, p, at, e);
    }
  }

  // ------------------------------------------------------------------- what a drive keeps

  /** The driver's worker, at each stage. */
  predicate WorkerFits(j: Job, p: nat, s: Drive) {
    match s.driver
    case Begun(_) => p in s.world.workers && s.world.workers[p] == Started(j.action, j.revision, Some(j.plan))
    case Answered(_, reply) =>
      p in s.world.workers && s.world.workers[p] == Returned(j.action, j.revision, Some(j.plan), reply)
    case Checking(i, _, _, _) =>
      && i < |j.bindings| && j.bindings[i].0 == j.step
      && p in s.world.workers && s.world.workers[p] == Evaluating(j.bindings[i].1, Some(j.action))
    case _ => Finished(s.driver) || p !in s.world.workers
  }

  predicate AtRevision(d: Db, step: Id, revision: nat, status: StepStatus) {
    && step in d.steps && revision <= d.steps[step].revision
    && (d.steps[step].revision == revision ==> d.steps[step].status == status)
  }

  /** The first i bindings of the step were seen PASS. */
  predicate BoundPassed(j: Job, i: nat, passed: set<Id>) {
    forall k :: 0 <= k < |j.bindings| && k < i && j.bindings[k].0 == j.step ==> j.bindings[k].1 in passed
  }

  /** What the driver knows and the tables still say, whatever others did meanwhile. */
  predicate ProofHolds(j: Job, s: Drive) {
    var d := s.world.db;
    match s.driver
    case Recording(raw, obs) => ObservedAs(d, j.action, raw, obs)
    case Verifying(i, raw, obs, ev) => ObservedAs(d, j.action, raw, obs) && RestsOn(d, ev, obs) && BoundPassed(j, i, s.passed)
    case Checking(i, raw, obs, ev) => ObservedAs(d, j.action, raw, obs) && RestsOn(d, ev, obs) && BoundPassed(j, i, s.passed)
    case Fetching(raw, obs, ev) => ProvedAt(j, s, raw, obs, ev)
    case Readying(raw, obs, ev, _) => ProvedAt(j, s, raw, obs, ev)
    case Starting(raw, obs, ev, r) => ProvedAt(j, s, raw, obs, ev) && AtRevision(d, j.step, r, SReady)
    case Completing(raw, obs, ev, r) => ProvedAt(j, s, raw, obs, ev) && AtRevision(d, j.step, r, SExecuting)
    case DroveToEnd(raw, obs, ev) => ProvedAt(j, s, raw, obs, ev)
    case _ => true
  }

  predicate ProvedAt(j: Job, s: Drive, raw: string, obs: Id, ev: Id) {
    ObservedAs(s.world.db, j.action, raw, obs) && RestsOn(s.world.db, ev, obs) && BoundPassed(j, |j.bindings|, s.passed)
  }

  predicate BeforeCall(d: Driver) { d.Attempting? || d.Begun? || d.Asking? }

  predicate AfterCall(d: Driver) { !BeforeCall(d) && (!Finished(d) || d.DroveToEnd? || d.EndedOtherwise?) }

  /** At most one call, made before anything was recorded. */
  predicate CallsFit(j: Job, s: Drive) {
    && s.calls <= 1 && (BeforeCall(s.driver) ==> s.calls == 0) && (AfterCall(s.driver) ==> s.calls == 1)
    && (s.calls == 1 ==> Invocation(j.action, j.revision) in s.world.effects)
  }

  predicate Fits(j: Job, p: nat, s: Drive) { WorkerFits(j, p, s) && ProofHolds(j, s) && CallsFit(j, s) }

  ghost predicate DriveOk(j: Job, p: nat, s: Drive) { WorldOk(s.world) && Fits(j, p, s) }

  // -- others

  lemma OthersLeaveWorker(w: World, l: Label, p: nat)
    requires WorkerOf(l) != Some(p) && !l.Crash?
    ensures p in Next(w, l).workers <==> p in w.workers
    ensures p in w.workers ==> Next(w, l).workers[p] == w.workers[p]
  {
    hide Perform, BeginTx, EndTx, FreezeActionTx, MarkUnknownTx, StartVerificationTx, FinishVerificationTx, Classify;
  }

  lemma EffectsGrow(w: World, l: Label)
    ensures w.effects <= Next(w, l).effects
  {
    hide Perform, BeginTx, EndTx, FreezeActionTx, MarkUnknownTx, StartVerificationTx, FinishVerificationTx, Classify;
  }

  /** Observations and evidence are permanent, and a step at the same revision is the same. */
  lemma ProofStays(j: Job, s: Drive, s': Drive)
    requires ProofHolds(j, s) && s'.driver == s.driver && s'.passed == s.passed
    requires ObservationsEvolve(s.world.db.observations, s'.world.db.observations)
    requires EvidenceEvolve(s.world.db.evidence, s'.world.db.evidence)
    requires StepsEvolve(s.world.db.steps, s'.world.db.steps)
    ensures ProofHolds(j, s')
  {
    if j.step in s.world.db.steps { assert StepStep(s.world.db.steps[j.step], s'.world.db.steps[j.step]); }
  }

  lemma OtherKeeps(j: Job, p: nat, s: Drive, l: Label)
    requires DriveOk(j, p, s) && WorkerOf(l) != Some(p)
    ensures DriveOk(j, p, DriveNext(j, p, s, Other(l)))
  {
    hide Inv, StartsOk, EffectsOk, WorkersOk, Next, ProofHolds, Evolves;
    StepKeepsWorld(s.world, l);
    TablesOf(s.world.db, Next(s.world, l).db);
    EffectsGrow(s.world, l);
    ProofStays(j, s, s.(world := Next(s.world, l)));
    if l.Crash? {
      DeadProof(j, DriveNext(j, p, s, Other(l)), s.(world := Next(s.world, l)));
    } else {
      OthersLeaveWorker(s.world, l, p);
    }
  }

  lemma DeadProof(j: Job, s: Drive, s': Drive)
    requires s.driver.Died? || s == s'
    requires ProofHolds(j, s')
    ensures ProofHolds(j, s)
  {
  }

  // -- the driver's own turns

  lemma EndRecords(d: Db, w: Worker)
    requires w.Returned? && EndTx(d, w).res.Ok? && w.reply.Value?
    ensures EndTx(d, w).res.made.Some? && ObservedAs(EndTx(d, w).db, w.action, w.reply.raw, EndTx(d, w).res.made.value)
  {
    hide PlanMismatchReason;
  }

  lemma EndNeverAsks(d: Db, w: Worker)
    requires w.Returned?
    ensures EndTx(d, w).res != Rejected(ConfirmationRequired)
  {
    hide OwningTask;
  }

  lemma EvidenceRecords(d: Db, obs: Id)
    requires obs in d.observations
    ensures var r := EvidencePipeline.Apply(d, RecordRuntime(obs));
            && r.res.Ok? && r.res.made.Some? && RestsOn(r.db, r.res.made.value, obs)
            && r.db.observations == d.observations
  {
  }

  lemma TransitionReaches(d: Db, step: Id, status: StepStatus, r: nat)
    requires TransitionTx(d, step, OfStep(status), r).res.Ok?
    ensures AtRevision(TransitionTx(d, step, OfStep(status), r).db, step, r + 1, status)
    ensures var d' := TransitionTx(d, step, OfStep(status), r).db;
            d'.observations == d.observations && d'.evidence == d.evidence
  {
    hide StepNext;
  }

  lemma AttemptTurn(j: Job, p: nat, s: Drive, t: Event)
    requires Fits(j, p, s) && t.Turn?
    requires s.driver.Attempting? || s.driver.Begun? || s.driver.Asking?
    ensures Fits(j, p, DriveNext(j, p, s, t))
  {
    hide BeginTx, StartOf, Passes, OnlyEvaluator;
  }

  lemma AnswerTurn(j: Job, p: nat, s: Drive, t: Event)
    requires Fits(j, p, s) && t.Turn? && s.driver.Answered?
    ensures Fits(j, p, DriveNext(j, p, s, t))
  {
    hide EndTx, Passes, OnlyEvaluator, ObservedAs;
    var w := s.world.workers[p];
    EndNeverAsks(s.world.db, w);
    if EndTx(s.world.db, w).res.Ok? && w.reply.Value? { EndRecords(s.world.db, w); }
  }

  lemma EvidenceTurn(j: Job, p: nat, s: Drive, t: Event)
    requires Fits(j, p, s) && t.Turn? && s.driver.Recording?
    ensures Fits(j, p, DriveNext(j, p, s, t))
  {
    hide EvidencePipeline.Apply, Passes, OnlyEvaluator;
    EvidenceRecords(s.world.db, s.driver.obs);
  }

  lemma VerifyTurn(j: Job, p: nat, s: Drive, t: Event)
    requires Fits(j, p, s) && t.Turn? && s.driver.Verifying?
    ensures Fits(j, p, DriveNext(j, p, s, t))
  {
    hide StartVerificationTx, Passes, OnlyEvaluator;
  }

  lemma CheckTurn(j: Job, p: nat, s: Drive, t: Event)
    requires Fits(j, p, s) && t.Turn? && s.driver.Checking?
    ensures Fits(j, p, DriveNext(j, p, s, t))
  {
    hide FinishVerificationTx, OnlyEvaluator;
  }

  lemma FetchTurn(j: Job, p: nat, s: Drive, t: Event)
    requires Fits(j, p, s) && t.Turn? && s.driver.Fetching?
    ensures Fits(j, p, DriveNext(j, p, s, t))
  {
    hide Passes, OnlyEvaluator, ObservedAs, RestsOn, BoundPassed, Next;
    assert s.passed + {} == s.passed;
  }

  lemma ReadyTurn(j: Job, p: nat, s: Drive, t: Event)
    requires Fits(j, p, s) && t.Turn? && s.driver.Readying?
    ensures Fits(j, p, DriveNext(j, p, s, t))
  {
    hide TransitionTx, Passes, OnlyEvaluator, AtRevision;
    if TransitionTx(s.world.db, j.step, OfStep(SReady), s.driver.revision).res.Ok? {
      TransitionReaches(s.world.db, j.step, SReady, s.driver.revision);
    }
  }

  lemma StartTurn(j: Job, p: nat, s: Drive, t: Event)
    requires Fits(j, p, s) && t.Turn? && s.driver.Starting?
    ensures Fits(j, p, DriveNext(j, p, s, t))
  {
    hide TransitionTx, Passes, OnlyEvaluator, AtRevision;
    if TransitionTx(s.world.db, j.step, OfStep(SExecuting), s.driver.revision).res.Ok? {
      TransitionReaches(s.world.db, j.step, SExecuting, s.driver.revision);
    }
  }

  /** The last turn: complete_step by whatever it answers. */
  lemma CompletingNext(j: Job, p: nat, s: Drive, t: Event)
    requires t.Turn? && s.driver.Completing?
    ensures var s' := DriveNext(j, p, s, t);
            && s'.world.db == CompleteStepTx(s.world.db, j.step, s.driver.revision).db
            && s'.world.effects == s.world.effects && s'.calls == s.calls && s'.passed == s.passed
            && s'.driver == DroveToEnd(s.driver.raw, s.driver.obs, s.driver.ev)
  {
    hide CompleteStepTx, Passes, OnlyEvaluator;
    assert s.passed + {} == s.passed;
  }

  lemma LastTurn(j: Job, p: nat, s: Drive, t: Event)
    requires Fits(j, p, s) && t.Turn? && s.driver.Completing?
    ensures Fits(j, p, DriveNext(j, p, s, t))
  {
    hide CompleteStepTx, DriveNext;
    CompletingNext(j, p, s, t);
  }

  lemma OverTurn(j: Job, p: nat, s: Drive, t: Event)
    requires Fits(j, p, s) && t.Turn? && Finished(s.driver)
    ensures Fits(j, p, DriveNext(j, p, s, t))
  {
    hide Next, Passes, OnlyEvaluator;
  }

  lemma TurnKeeps(j: Job, p: nat, s: Drive, t: Event)
    requires DriveOk(j, p, s) && t.Turn?
    ensures DriveOk(j, p, DriveNext(j, p, s, t))
  {
    hide Inv, StartsOk, EffectsOk, WorkersOk, Next, Fits, Turned, Passes, OnlyEvaluator;
    if LabelOf(j, p, s, t).Some? { StepKeepsWorld(s.world, LabelOf(j, p, s, t).value); }
    match s.driver
    case Attempting(_) => AttemptTurn(j, p, s, t);
    case Begun(_) => AttemptTurn(j, p, s, t);
    case Asking => AttemptTurn(j, p, s, t);
    case Answered(_, _) => AnswerTurn(j, p, s, t);
    case Recording(_, _) => EvidenceTurn(j, p, s, t);
    case Verifying(_, _, _, _) => VerifyTurn(j, p, s, t);
    case Checking(_, _, _, _) => CheckTurn(j, p, s, t);
    case Fetching(_, _, _) => FetchTurn(j, p, s, t);
    case Readying(_, _, _, _) => ReadyTurn(j, p, s, t);
    case Starting(_, _, _, _) => StartTurn(j, p, s, t);
    case Completing(_, _, _, _) => LastTurn(j, p, s, t);
    case _ => OverTurn(j, p, s, t);
  }

  // ------------------------------------------------------------------------- theorems

  lemma {:induction false} DriveRunOk(j: Job, p: nat, w: World, events: seq<Event>)
    requires Reachable(w) && p !in w.workers && AllForeign(events, p)
    ensures DriveOk(j, p, DriveRun(j, p, Fresh(w), events))
    decreases |events|
  {
    hide Inv, StartsOk, EffectsOk, WorkersOk, Reachable, DriveNext;
    if events == [] {
      ReachableOk(w);
    } else {
      var before, e := events[..|events| - 1], events[|events| - 1];
      DriveRunOk(j, p, w, before);
      assert Foreign(e, p);
      match e
      case Other(l) => OtherKeeps(j, p, DriveRun(j, p, Fresh(w), before), l);
      case Turn(_, _, _, _) => TurnKeeps(j, p, DriveRun(j, p, Fresh(w), before), e);
    }
  }

  /** Exactly one entry of the effect log is this call. */
  ghost predicate CalledExactlyOnce(effects: seq<Invocation>, x: Invocation) {
    x in effects && forall i, k :: 0 <= i < k < |effects| && effects[i] == x ==> effects[k] != x
  }

  /** Whatever others do between its transactions, a drive calls the capability at most once. One that reports COMPLETED
      called it exactly once, and the returned value is on record as an Observation of the action, with runtime evidence
      resting on it: at that moment and at every later point, repairs included. */
  lemma {:induction false} DriveProves(j: Job, p: nat, w: World, events: seq<Event>, later: seq<Label>)
    requires Reachable(w) && p !in w.workers && AllForeign(events, p)
    ensures var s := DriveRun(j, p, Fresh(w), events);
            && s.calls <= 1
            && (s.driver.DroveToEnd? ==>
                  && s.calls == 1
                  && CalledExactlyOnce(s.world.effects, Invocation(j.action, j.revision))
                  && ObservedAs(Run(s.world, later).db, j.action, s.driver.raw, s.driver.obs)
                  && RestsOn(Run(s.world, later).db, s.driver.ev, s.driver.obs)
                  && BoundPassed(j, |j.bindings|, s.passed))
  {
    hide Inv, StartsOk, WorkersOk, Reachable, Run, DriveRun, Evolves;
    var s := DriveRun(j, p, Fresh(w), events);
    DriveRunOk(j, p, w, events);
    RunKeeps(s.world, later);
    TablesOf(s.world.db, Run(s.world, later).db);
  }

  lemma PassCommits(j: Job, p: nat, s: Drive, e: Event, v: Id)
    requires WorkerFits(j, p, s) && v in DriveNext(j, p, s, e).passed && v !in s.passed
    ensures Passed(DriveNext(j, p, s, e).world.db, v)
  {
    hide GateFault, ClaimExists, Turned, OnlyEvaluator;
  }

  /** Every verification a drive saw PASS was PASS in the store at some moment of the drive. */
  lemma {:induction false} SeenPassWasPass(j: Job, p: nat, w: World, events: seq<Event>, v: Id) returns (k: nat)
    requires Reachable(w) && p !in w.workers && AllForeign(events, p)
    requires v in DriveRun(j, p, Fresh(w), events).passed
    ensures k <= |events| && Passed(DriveRun(j, p, Fresh(w), events[..k]).world.db, v)
    decreases |events|
  {
    hide Inv, Reachable, WorldOk, DriveNext, ProofHolds, CallsFit, WorkerFits;
    if events == [] {
      assert false;
    } else {
      var before, e := events[..|events| - 1], events[|events| - 1];
      if v in DriveRun(j, p, Fresh(w), before).passed {
        k := SeenPassWasPass(j, p, w, before, v);
        assert events[..k] == before[..k];
      } else {
        DriveRunOk(j, p, w, before);
        PassCommits(j, p, DriveRun(j, p, Fresh(w), before), e, v);
        k := |events|;
        assert events[..k] == events;
      }
    }
  }

  /** Verifications that PASSed without another evaluation under way: final, and nobody evaluating. */
  predicate SoleHold(s: Drive) {
    forall v :: v in s.sole ==> v in s.world.db.verifications && s.world.db.verifications[v].result == VPass
                                && !UnderEvaluation(s.world, v)
  }

  lemma SoleCommits(j: Job, p: nat, s: Drive, t: Event, v: Id)
    requires WorkerFits(j, p, s) && t.Turn? && v in DriveNext(j, p, s, t).sole && v !in s.sole
    ensures Passed(DriveNext(j, p, s, t).world.db, v) && !UnderEvaluation(DriveNext(j, p, s, t).world, v)
  {
    hide GateFault, ClaimExists, Turned;
  }

  lemma StepSoleHold(j: Job, p: nat, s: Drive, e: Event)
    requires Reachable(s.world) && WorkerFits(j, p, s) && SoleHold(s) && (e.Other? ==> !IsRepair(e.theirs))
    ensures SoleHold(DriveNext(j, p, s, e))
  {
    hide Reachable, Run, DriveNext, UnderEvaluation, WorkerFits, Labels;
    var s' := DriveNext(j, p, s, e);
    EventIsARun(j, p, s, e);
    forall v | v in s'.sole
      ensures v in s'.world.db.verifications && s'.world.db.verifications[v].result == VPass && !UnderEvaluation(s'.world, v)
    {
      if v in s.sole {
        FinalStays(s.world, Labels(j, p, s, e), v);
      } else {
        SoleFromTurn(j, p, s, e, v);
        SoleCommits(j, p, s, e, v);
      }
    }
  }

  lemma SoleFromTurn(j: Job, p: nat, s: Drive, e: Event, v: Id)
    requires v in DriveNext(j, p, s, e).sole && v !in s.sole
    ensures e.Turn?
  {
  }

  lemma {:induction false} RunSoleHold(j: Job, p: nat, w: World, events: seq<Event>)
    requires Reachable(w) && p !in w.workers && AllForeign(events, p) && OthersRepairFree(events)
    ensures SoleHold(DriveRun(j, p, Fresh(w), events))
    decreases |events|
  {
    hide Reachable, Run, DriveNext, SoleHold, WorldOk, ProofHolds, CallsFit, WorkerFits;
    if events == [] {
      NoneSole(w);
    } else {
      var before, e := events[..|events| - 1], events[|events| - 1];
      RunSoleHold(j, p, w, before);
      DriveRunOk(j, p, w, before);
      var labels := DriveIsARun(j, p, Fresh(w), before);
      StillReachable(w, labels);
      StepSoleHold(j, p, DriveRun(j, p, Fresh(w), before), e);
    }
  }

  lemma NoneSole(w: World)
    ensures SoleHold(Fresh(w))
  {
  }

  lemma {:induction false} StillReachable(w: World, labels: seq<Label>)
    requires Reachable(w)
    ensures Reachable(Run(w, labels))
  {
    hide Run;
    var before :| w == Run(BOOT, before);
    RunOn(BOOT, before, labels);
  }

  /** Without repair, at every moment of a drive: once its Observation is on record the action is OBSERVED, and every
      verification that PASSed while nobody else was evaluating it still is PASS. */
  lemma {:induction false} CleanDriveKeeps(j: Job, p: nat, w: World, events: seq<Event>)
    requires CleanlyReachable(w) && p !in w.workers && AllForeign(events, p) && OthersRepairFree(events)
    ensures var s := DriveRun(j, p, Fresh(w), events);
            && (s.driver.DroveToEnd? ==> j.action in s.world.db.actions && s.world.db.actions[j.action].status == AObserved)
            && (forall v :: v in s.sole ==> Passed(s.world.db, v))
  {
    hide Inv, Run, DriveRun, CleanlyReachable, Reachable, UnderEvaluation, WorldOk, CallsFit, WorkerFits;
    CleanOk(w);
    var s := DriveRun(j, p, Fresh(w), events);
    DriveRunOk(j, p, w, events);
    RunSoleHold(j, p, w, events);
    var labels := DriveIsARun(j, p, Fresh(w), events);
    CleanlyOnward(w, labels);
    CleanOk(s.world);
  }

  /** Exactly when the step ends COMPLETED: complete_step's answer is not looked at, so the drive reports COMPLETED in any
      case, but the step is COMPLETED if and only if nobody touched it since it was set EXECUTING, or someone else
      completed it. */
  lemma StepCompletedIff(j: Job, p: nat, s: Drive, t: Event)
    requires Fits(j, p, s) && s.driver.Completing? && t.Turn?
    ensures DriveNext(j, p, s, t).driver.DroveToEnd?
    ensures StatusOf(DriveNext(j, p, s, t).world.db, j.step) == Some(SCompleted) <==>
              RevisionOfStep(s.world.db, j.step) == Some(s.driver.revision) || StatusOf(s.world.db, j.step) == Some(SCompleted)
  {
    hide WorkerFits, CallsFit, ObservedAs, RestsOn, BoundPassed, DriveNext;
    CompletingNext(j, p, s, t);
  }

  function RevisionOfStep(d: Db, step: Id): Option<nat> { if step in d.steps then Some(d.steps[step].revision) else None }

  /** The step's status, if it exists. */
  function StatusOf(d: Db, step: Id): Option<StepStatus> { if step in d.steps then Some(d.steps[step].status) else None }

  function CancelStep(j: Job, revision: nat): Event { Other(Do(OfWork(Transition(j.step, OfStep(SCancelled), revision)))) }

  lemma CancelledMeanwhile(j: Job, p: nat, s: Drive)
    requires DriveOk(j, p, s) && s.driver.Completing? && RevisionOfStep(s.world.db, j.step) == Some(s.driver.revision)
    ensures var s' := DriveNext(j, p, s, CancelStep(j, s.driver.revision));
            s'.driver == s.driver && StatusOf(s'.world.db, j.step) == Some(SCancelled)
  {
    hide StartsOk, EffectsOk, WorkersOk, Inv, WorkerFits, CallsFit, ObservedAs, RestsOn, BoundPassed, TransitionTx;
    CancelCommits(s.world.db, j.step);
  }

  lemma CompletingCancelled(j: Job, p: nat, s: Drive, t: Event)
    requires t.Turn? && s.driver.Completing? && StatusOf(s.world.db, j.step) == Some(SCancelled)
    ensures DriveNext(j, p, s, t).driver.DroveToEnd? && StatusOf(DriveNext(j, p, s, t).world.db, j.step) == Some(SCancelled)
  {
    hide DriveNext;
    CompletingNext(j, p, s, t);
  }

  /** So it may report COMPLETED for a CANCELLED step: another caller cancels the step just before. */
  lemma CancelledStepReported(j: Job, p: nat, s: Drive, t: Event)
    requires DriveOk(j, p, s) && s.driver.Completing? && t.Turn?
    requires RevisionOfStep(s.world.db, j.step) == Some(s.driver.revision)
    ensures var s' := DriveNext(j, p, DriveNext(j, p, s, CancelStep(j, s.driver.revision)), t);
            s'.driver.DroveToEnd? && StatusOf(s'.world.db, j.step) == Some(SCancelled)
  {
    hide DriveNext, DriveOk, StatusOf;
    CancelledMeanwhile(j, p, s);
    CompletingCancelled(j, p, DriveNext(j, p, s, CancelStep(j, s.driver.revision)), t);
  }

  lemma CancelCommits(d: Db, step: Id)
    requires Inv(d) && step in d.steps && d.steps[step].status == SExecuting
    ensures var r := TransitionTx(d, step, OfStep(SCancelled), d.steps[step].revision);
            r.res.Ok? && step in r.db.steps && r.db.steps[step].status == SCancelled
            && r.db.steps[step].revision == d.steps[step].revision + 1
  {
    hide Inv;
    MintedKeys(d);
  }
}
