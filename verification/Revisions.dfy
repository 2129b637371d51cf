/** Optimistic concurrency: no lost update and no ABA, over every run, repairs included. */
module Revisions {
  import opened Types
  import opened Obligations
  import opened Safety
  import opened Execution
  import opened Work
  import opened Repair
  import opened Invariants
  import opened RowWrites
  import opened Kernel
  import opened RunProofs
  import opened RunTheorems

  function RevisionOf(d: Db, x: Id): Option<nat> {
    match Load(d, x)
    case AGoal(g) => Some(g.revision)
    case ATask(t) => Some(t.revision)
    case APlan(p) => Some(p.revision)
    case AStep(s) => Some(s.revision)
    case AnAction(a) => Some(a.revision)
    case NoObject => if x in d.obligations then Some(d.obligations[x].revision) else None
  }

  /** The object and revision a call stakes its commit on. */
  function Expects(d: Db, c: Call): Option<(Id, nat)> {
    match c
    case OfWork(w) => (
      match w
      case CreateTask(g, _, _, _, e) => if e.Some? then Some((g, e.value)) else None
      case AddDependency(p, _, _, e) => Some((p, e))
      case CreatePlanWithSteps(_, t, _, e) => Some((t, e))
      case ActivatePlan(t, _, e) => Some((t, e))
      case SupersedePlan(t, _, _, e) => Some((t, e))
      case Complete(o, e, _) => Some((o, e))
      case CancelTask(t, e) => Some((t, e))
      case CancelGoal(g, e) => Some((g, e))
      case Archive(o, e) => Some((o, e))
      case Transition(o, _, e) => Some((o, e))
      case CompleteStep(s, e) => Some((s, e))
      case _ => None)
    case OfAction(a) => (
      match a
      case CreateAction(s, _, _, _, _, e, _) => if e.Some? then Some((s, e.value)) else None
      case Begin(i, e, _, _) => Some((i, e))
      case MarkObserved(i, e, _, _) => Some((i, e))
      case MarkUnknown(i, e) => Some((i, e))
      case MarkFailed(i, e, _) => Some((i, e))
      case CancelAction(i, e) => Some((i, e))
      case Retry(i, e) =>
        if i in d.actions && OwningTask(d, d.actions[i]).Some? then Some((OwningTask(d, d.actions[i]).value, e)) else None
      case _ => None)
    case OfObligation(o) => (
      match o
      case Abandon(i, _, e) => Some((i, e))
      case Resolve(i, _, e) => Some((i, e))
      case _ => None)
    case OfRepair(r) => (
      match r
      case RepairObject(i, e, _, _) => if i in d.verifications then None else Some((i, e))
      case AbandonUnrepairable(i, e) => Some((i, e)))
    case _ => None
  }

  /** Calls that write the object whose revision they stake; the others create something under it. */
  predicate Writes(c: Call) {
    && !(c.OfWork? && (c.work.CreatePlanWithSteps? || c.work.CreateTask?))
    && !(c.OfAction? && c.action.CreateAction?)
  }

  /** The kinds keep every lookup in its own table. */
  lemma LoadByTable(d: Db, x: Id)
    requires Inv(d)
    ensures x in d.goals ==> Load(d, x) == AGoal(d.goals[x])
    ensures x in d.tasks ==> Load(d, x) == ATask(d.tasks[x])
    ensures x in d.plans ==> Load(d, x) == APlan(d.plans[x])
    ensures x in d.steps ==> Load(d, x) == AStep(d.steps[x])
    ensures x in d.actions ==> Load(d, x) == AnAction(d.actions[x])
    ensures x in d.obligations ==> Load(d, x) == NoObject
  {
    hide Inv;
    MintedKeys(d);
  }

  lemma RevisionsByTable(d: Db, x: Id)
    requires Inv(d)
    ensures x in d.goals ==> RevisionOf(d, x) == Some(d.goals[x].revision)
    ensures x in d.tasks ==> RevisionOf(d, x) == Some(d.tasks[x].revision)
    ensures x in d.plans ==> RevisionOf(d, x) == Some(d.plans[x].revision)
    ensures x in d.steps ==> RevisionOf(d, x) == Some(d.steps[x].revision)
    ensures x in d.actions ==> RevisionOf(d, x) == Some(d.actions[x].revision)
    ensures x in d.obligations ==> RevisionOf(d, x) == Some(d.obligations[x].revision)
  {
    hide Inv, Load;
    LoadByTable(d, x);
  }

  /** Some row x moved from revision r to r + 1. */
  predicate Raised(d: Db, d': Db, x: Id, r: nat) {
    || (x in d.goals && x in d'.goals && d.goals[x].revision == r && d'.goals[x].revision == r + 1)
    || (x in d.tasks && x in d'.tasks && d.tasks[x].revision == r && d'.tasks[x].revision == r + 1)
    || (x in d.plans && x in d'.plans && d.plans[x].revision == r && d'.plans[x].revision == r + 1)
    || (x in d.steps && x in d'.steps && d.steps[x].revision == r && d'.steps[x].revision == r + 1)
    || (x in d.actions && x in d'.actions && d.actions[x].revision == r && d'.actions[x].revision == r + 1)
    || (x in d.obligations && x in d'.obligations && d.obligations[x].revision == r && d'.obligations[x].revision == r + 1)
  }

  lemma RaisedRevision(d: Db, d': Db, x: Id, r: nat)
    requires Inv(d) && Inv(d') && Raised(d, d', x, r)
    ensures RevisionOf(d, x) == Some(r) && RevisionOf(d', x) == Some(r + 1)
  {
    hide Inv, RevisionOf;
    RevisionsByTable(d, x);
    RevisionsByTable(d', x);
  }

  lemma GoalRaised(d: Db, d': Db, x: Id)
    requires x in d.goals && x in d'.goals && d'.goals[x].revision == d.goals[x].revision + 1
    ensures Raised(d, d', x, d.goals[x].revision)
  {
  }
  lemma TaskRaised(d: Db, d': Db, x: Id)
    requires x in d.tasks && x in d'.tasks && d'.tasks[x].revision == d.tasks[x].revision + 1
    ensures Raised(d, d', x, d.tasks[x].revision)
  {
  }
  lemma PlanRaised(d: Db, d': Db, x: Id)
    requires x in d.plans && x in d'.plans && d'.plans[x].revision == d.plans[x].revision + 1
    ensures Raised(d, d', x, d.plans[x].revision)
  {
  }
  lemma StepRaised(d: Db, d': Db, x: Id)
    requires x in d.steps && x in d'.steps && d'.steps[x].revision == d.steps[x].revision + 1
    ensures Raised(d, d', x, d.steps[x].revision)
  {
  }
  lemma ActionRaised(d: Db, d': Db, x: Id)
    requires x in d.actions && x in d'.actions && d'.actions[x].revision == d.actions[x].revision + 1
    ensures Raised(d, d', x, d.actions[x].revision)
  {
  }
  lemma ObligationRaised(d: Db, d': Db, x: Id)
    requires x in d.obligations && x in d'.obligations && d'.obligations[x].revision == d.obligations[x].revision + 1
    ensures Raised(d, d', x, d.obligations[x].revision)
  {
  }
  lemma CompleteGoalRaises(d: Db, x: Id, r: nat, k: bool)
    requires CompleteTx(d, x, r, k).res.Ok? && x in d.goals
    ensures Raised(d, CompleteTx(d, x, r, k).db, x, r)
  {
    hide EvaluateCompletion, AllRequiredPass, TaskChildren, GoalChildren, StepsDone, TasksDone, TerminalCommit, Raised;
    GoalRaised(d, CompleteTx(d, x, r, k).db, x);
  }

  lemma CompleteTaskRaises(d: Db, x: Id, r: nat, k: bool)
    requires CompleteTx(d, x, r, k).res.Ok? && x !in d.goals
    ensures Raised(d, CompleteTx(d, x, r, k).db, x, r)
  {
    hide EvaluateCompletion, AllRequiredPass, TaskChildren, GoalChildren, StepsDone, TasksDone, TerminalCommit, Raised;
    TaskRaised(d, CompleteTx(d, x, r, k).db, x);
  }

  lemma TerminateRaises(d: Db, x: Id, s: WorkStatus, r: nat)
    requires TerminateTx(d, x, s, r).res.Ok?
    ensures Raised(d, TerminateTx(d, x, s, r).db, x, r)
  {
    hide TerminalCommit, GoalNext, TaskNext, Raised, Load;
    LoadedFrom(d, x);
    var d' := TerminateTx(d, x, s, r).db;
    match Load(d, x)
    case AGoal(g) => GoalRaised(d, d', x);
    case ATask(t) => TaskRaised(d, d', x);
    case _ =>
  }

  lemma TransitionRaises(d: Db, x: Id, s: WorkStatus, r: nat)
    requires TransitionTx(d, x, s, r).res.Ok?
    ensures Raised(d, TransitionTx(d, x, s, r).db, x, r)
  {
    hide GoalNext, TaskNext, PlanNext, StepNext, Raised;
    var d' := TransitionTx(d, x, s, r).db;
    match Load(d, x)
    case AGoal(g) => GoalRaised(d, d', x);
    case ATask(t) => TaskRaised(d, d', x);
    case APlan(p) => PlanRaised(d, d', x);
    case AStep(q) => StepRaised(d, d', x);
    case _ =>
  }

  lemma DependencyRaises(d: Db, p: Id, s: Id, on: Id, r: nat)
    requires AddDependencyTx(d, p, s, on, r).res.Ok?
    ensures Raised(d, AddDependencyTx(d, p, s, on, r).db, p, r)
  {
    hide Raised;
    PlanRaised(d, AddDependencyTx(d, p, s, on, r).db, p);
  }

  lemma ActivateRaises(d: Db, t: Id, p: Id, r: nat)
    requires ActivatePlanTx(d, t, p, r).res.Ok?
    ensures Raised(d, ActivatePlanTx(d, t, p, r).db, t, r)
  {
    hide Raised;
    TaskRaised(d, ActivatePlanTx(d, t, p, r).db, t);
  }

  lemma SupersedeRaises(d: Db, t: Id, p: Id, q: Id, r: nat)
    requires SupersedePlanTx(d, t, p, q, r).res.Ok?
    ensures Raised(d, SupersedePlanTx(d, t, p, q, r).db, t, r)
  {
    hide Raised;
    TaskRaised(d, SupersedePlanTx(d, t, p, q, r).db, t);
  }

  lemma CompleteStepRaises(d: Db, s: Id, r: nat)
    requires CompleteStepTx(d, s, r).res.Ok?
    ensures Raised(d, CompleteStepTx(d, s, r).db, s, r)
  {
    hide Raised;
    StepRaised(d, CompleteStepTx(d, s, r).db, s);
  }

  lemma WorkRaises(d: Db, c: WorkCall, x: Id, r: nat)
    requires Work.Apply(d, c).res.Ok? && Expects(d, OfWork(c)) == Some((x, r)) && Writes(OfWork(c))
    ensures Raised(d, Work.Apply(d, c).db, x, r)
  {
    hide Raised, CompleteTx, TerminateTx, TransitionTx, AddDependencyTx, ActivatePlanTx, SupersedePlanTx, CompleteStepTx;
    match c
    case Complete(o, e, k) => if o in d.goals { CompleteGoalRaises(d, o, e, k); } else { CompleteTaskRaises(d, o, e, k); }
    case CancelTask(t, e) => TerminateRaises(d, t, OfTask(TCancelled), e);
    case CancelGoal(g, e) => TerminateRaises(d, g, OfGoal(GCancelled), e);
    case Archive(o, e) =>
      TerminateRaises(d, o, if Load(d, o).AGoal? then OfGoal(GArchived) else OfTask(TArchived), e);
    case Transition(o, s, e) => TransitionRaises(d, o, s, e);
    case AddDependency(p, s, on, e) => DependencyRaises(d, p, s, on, e);
    case ActivatePlan(t, p, e) => ActivateRaises(d, t, p, e);
    case SupersedePlan(t, p, q, e) => SupersedeRaises(d, t, p, q, e);
    case CompleteStep(s, e) => CompleteStepRaises(d, s, e);
  }

  lemma EndingRaises(d: Db, c: ActionCall)
    requires (c.MarkObserved? || c.MarkUnknown?) && Execution.Apply(d, c).res.Ok?
    ensures Raised(d, Execution.Apply(d, c).db, c.action, c.expected)
  {
    hide PlanMismatchReason, OwningTask;
  }

  lemma RetryRaises(d: Db, i: Id, e: nat)
    requires RetryTx(d, i, e).res.Ok?
    ensures i in d.actions && OwningTask(d, d.actions[i]).Some?
    ensures Raised(d, RetryTx(d, i, e).db, OwningTask(d, d.actions[i]).value, e)
  {
    hide OwningTask;
  }

  lemma ActionRaises(d: Db, c: ActionCall, x: Id, r: nat)
    requires Execution.Apply(d, c).res.Ok? && Expects(d, OfAction(c)) == Some((x, r)) && Writes(OfAction(c))
    ensures Raised(d, Execution.Apply(d, c).db, x, r)
  {
    hide PlanMismatchReason, GateOpens, OwningTask, MarkObservedTx, MarkUnknownTx, RetryTx, FreezeActionTx, CreateActionTx;
    match c
    case MarkObserved(_, _, _, _) => EndingRaises(d, c);
    case MarkUnknown(_, _) => EndingRaises(d, c);
    case Retry(i, e) => RetryRaises(d, i, e);
    case _ =>
  }

  lemma ObligationRaises(d: Db, c: ObligationCall, x: Id, r: nat)
    requires Obligations.Apply(d, c).res.Ok? && Expects(d, OfObligation(c)) == Some((x, r))
    ensures Raised(d, Obligations.Apply(d, c).db, x, r)
  {
    hide Raised, AbandonLocked, ResolveObligation;
    match c
    case Abandon(i, h, e) => AbandonEventRaises(d, i, h, e);
    case Resolve(i, v, e) => ResolveRaises(d, i, v, e);
  }

  lemma AbandonEventRaises(d: Db, i: Id, human: bool, e: nat)
    requires AbandonLocked(d, i, human, e).res.Ok?
    ensures Raised(d, AbandonLocked(d, i, human, e).db, i, e)
  {
    hide Raised;
    ObligationRaised(d, AbandonLocked(d, i, human, e).db, i);
  }

  lemma ResolveRaises(d: Db, i: Id, v: Id, e: nat)
    requires ResolveObligation(d, i, v, e).res.Ok?
    ensures Raised(d, ResolveObligation(d, i, v, e).db, i, e)
  {
    hide Raised, Concerns;
    ObligationRaised(d, ResolveObligation(d, i, v, e).db, i);
  }

  lemma RepairGoalRaises(d: Db, x: Id, r: nat, t: Target)
    requires x in d.goals && RepairGoalTx(d, x, r, t).res.Ok?
    ensures Raised(d, RepairGoalTx(d, x, r, t).db, x, r)
  {
    hide Settle, Raised, TaskAggregateOk, PlanAggregateOk, Observed;
    GoalRaised(d, RepairGoalTx(d, x, r, t).db, x);
  }

  lemma RepairTaskRaises(d: Db, x: Id, r: nat, t: Target)
    requires x in d.tasks && RepairTaskTx(d, x, r, t).res.Ok?
    ensures Raised(d, RepairTaskTx(d, x, r, t).db, x, r)
  {
    hide Settle, Raised, TaskAggregateOk, PlanAggregateOk, Observed;
    TaskRaised(d, RepairTaskTx(d, x, r, t).db, x);
  }

  lemma RepairPlanRaises(d: Db, x: Id, r: nat, t: Target)
    requires x in d.plans && RepairPlanTx(d, x, r, t).res.Ok?
    ensures Raised(d, RepairPlanTx(d, x, r, t).db, x, r)
  {
    hide Settle, Raised, TaskAggregateOk, PlanAggregateOk, Observed;
    PlanRaised(d, RepairPlanTx(d, x, r, t).db, x);
  }

  lemma RepairStepRaises(d: Db, x: Id, r: nat, t: Target)
    requires x in d.steps && RepairStepTx(d, x, r, t).res.Ok?
    ensures Raised(d, RepairStepTx(d, x, r, t).db, x, r)
  {
    hide Settle, Raised, TaskAggregateOk, PlanAggregateOk, Observed;
    StepRaised(d, RepairStepTx(d, x, r, t).db, x);
  }

  lemma RepairActionRaises(d: Db, x: Id, r: nat, t: Target)
    requires x in d.actions && RepairActionTx(d, x, r, t).res.Ok?
    ensures Raised(d, RepairActionTx(d, x, r, t).db, x, r)
  {
    hide Settle, Raised, TaskAggregateOk, PlanAggregateOk, Observed;
    ActionRaised(d, RepairActionTx(d, x, r, t).db, x);
  }

  lemma RepairRecordRaises(d: Db, x: Id, r: nat, t: Target)
    requires x !in d.verifications && RepairRecordTx(d, x, r, t).res.Ok?
    ensures Raised(d, RepairRecordTx(d, x, r, t).db, x, r)
  {
    hide Raised;
    ObligationRaised(d, RepairRecordTx(d, x, r, t).db, x);
  }

  lemma RepairedRaises(d: Db, x: Id, r: nat, t: Target, justified: bool)
    requires RepairTx(d, x, r, t, justified).res.Ok? && x !in d.verifications
    ensures Raised(d, RepairTx(d, x, r, t, justified).db, x, r)
  {
    hide RepairGoalTx, RepairTaskTx, RepairPlanTx, RepairStepTx, RepairActionTx, RepairRecordTx, Raised;
    match Load(d, x)
    case AGoal(_) => RepairGoalRaises(d, x, r, t);
    case ATask(_) => RepairTaskRaises(d, x, r, t);
    case APlan(_) => RepairPlanRaises(d, x, r, t);
    case AStep(_) => RepairStepRaises(d, x, r, t);
    case AnAction(_) => RepairActionRaises(d, x, r, t);
    case NoObject => RepairRecordRaises(d, x, r, t);
  }

  lemma AbandonRaises(d: Db, x: Id, r: nat)
    requires AbandonUnrepairableTx(d, x, r).res.Ok?
    ensures Raised(d, AbandonUnrepairableTx(d, x, r).db, x, r)
  {
    hide Settle, Raised, Load;
    LoadedFrom(d, x);
    var d' := AbandonUnrepairableTx(d, x, r).db;
    match Load(d, x)
    case AGoal(g) => GoalRaised(d, d', x);
    case ATask(k) => TaskRaised(d, d', x);
    case AnAction(a) => ActionRaised(d, d', x);
    case _ =>
  }

  lemma RepairRaises(d: Db, c: RepairCall, x: Id, r: nat)
    requires Repair.Apply(d, c).res.Ok? && Expects(d, OfRepair(c)) == Some((x, r))
    ensures Raised(d, Repair.Apply(d, c).db, x, r)
  {
    hide RepairTx, AbandonUnrepairableTx, Raised;
    match c
    case RepairObject(i, e, t, j) => RepairedRaises(d, i, e, t, j);
    case AbandonUnrepairable(i, e) => AbandonRaises(d, i, e);
  }

  lemma AcceptanceReadsTask(d: Db, c: WorkCall)
    requires c.CreatePlanWithSteps? && Work.Apply(d, c).res.Ok?
    ensures c.task in d.tasks && d.tasks[c.task].revision == c.expected
  {
    hide AcceptedPlan, ProposalFault, ProposalGraph;
  }

  lemma CreationReadsParent(d: Db, c: Call, x: Id, r: nat)
    requires Inv(d) && Perform(d, c).res.Ok? && Expects(d, c) == Some((x, r)) && !Writes(c)
    ensures RevisionOf(d, x) == Some(r)
  {
    hide Inv, RevisionOf, CreatePlanWithStepsTx;
    RevisionsByTable(d, x);
    if c.OfWork? && c.work.CreatePlanWithSteps? { AcceptanceReadsTask(d, c.work); }
  }

  /** Compare and swap: a call that commits found exactly the revision it expected, and leaves its object one
      revision higher. */
  lemma CompareAndSwap(d: Db, c: Call, x: Id, r: nat)
    requires Inv(d) && Perform(d, c).res.Ok? && Expects(d, c) == Some((x, r))
    ensures RevisionOf(d, x) == Some(r)
    ensures Writes(c) ==> RevisionOf(Perform(d, c).db, x) == Some(r + 1)
  {
    hide Inv, Raised, RevisionOf, Work.Apply, Execution.Apply, Obligations.Apply, Repair.Apply;
    PerformKeeps(d, c);
    if !Writes(c) {
      CreationReadsParent(d, c, x, r);
    } else {
      match c {
        case OfWork(w) => WorkRaises(d, w, x, r);
        case OfAction(a) => ActionRaises(d, a, x, r);
        case OfObligation(o) => ObligationRaises(d, o, x, r);
        case OfRepair(p) => RepairRaises(d, p, x, r);
        case _ =>
      }
      RaisedRevision(d, Perform(d, c).db, x, r);
    }
  }

  /** The tracked fields of x: its whole row, but for a step's depends_on. */
  predicate SameTracked(d: Db, d': Db, x: Id) {
    && (match (Load(d, x), Load(d', x))
        case (AStep(s), AStep(s')) => s.(dependsOn := {}) == s'.(dependsOn := {})
        case (o, o') => o == o')
    && (x in d.obligations ==> x in d'.obligations && d'.obligations[x] == d.obligations[x])
  }

  lemma LoadedFrom(d: Db, x: Id)
    ensures match Load(d, x)
            case AGoal(g) => x in d.goals && g == d.goals[x]
            case ATask(t) => x in d.tasks && t == d.tasks[x]
            case APlan(p) => x in d.plans && p == d.plans[x]
            case AStep(s) => x in d.steps && s == d.steps[x]
            case AnAction(a) => x in d.actions && a == d.actions[x]
            case NoObject => true
  {
  }

  lemma LoadLater(d: Db, d': Db, x: Id)
    requires Inv(d) && Inv(d') && Evolves(d, d') && RevisionOf(d, x).Some?
    ensures RevisionOf(d', x).Some?
    ensures SameTracked(d, d', x) || RevisionOf(d, x).value < RevisionOf(d', x).value
  {
    hide Inv, Evolves, Load, SameAttempt;
    LoadByTable(d, x);
    LoadByTable(d', x);
    LoadedFrom(d, x);
    TablesOf(d, d');
    match Load(d, x)
    case AStep(s) => assert StepStep(s, d'.steps[x]);
    case AnAction(a) => assert ActionStep(a, d'.actions[x]);
    case NoObject => assert ObligationStep(d.obligations[x], d'.obligations[x]);
    case _ =>
  }

  /** Between any two points of a run an object's tracked fields are the same or its revision has grown: a call
      that commits at revision r works on exactly what any earlier read at r saw. */
  lemma {:induction false} NoLostUpdate(w: World, labels: seq<Label>, x: Id)
    requires Reachable(w) && RevisionOf(w.db, x).Some?
    ensures RevisionOf(Run(w, labels).db, x).Some?
    ensures SameTracked(w.db, Run(w, labels).db, x)
         || RevisionOf(w.db, x).value < RevisionOf(Run(w, labels).db, x).value
  {
    hide Inv, RevisionOf, SameTracked, StartsOk, EffectsOk, WorkersOk, Run, Reachable, Evolves;
    ReachableOk(w);
    RunKeeps(w, labels);
    LoadLater(w.db, Run(w, labels).db, x);
  }

  /** Two calls staking the same revision of the same object, the first of which writes it, never both commit,
      however far apart they run. */
  lemma {:induction false} OneWinner(w: World, first: Call, labels: seq<Label>, second: Call, x: Id, r: nat)
    requires Reachable(w)
    ensures var d' := Run(Next(w, Do(first)), labels).db;
            && Expects(w.db, first) == Some((x, r)) && Writes(first) && Perform(w.db, first).res.Ok?
            && Expects(d', second) == Some((x, r))
            ==> !Perform(d', second).res.Ok?
  {
    hide Inv, RevisionOf, SameTracked, StartsOk, EffectsOk, WorkersOk, Run, Reachable, Evolves, Expects, Writes, Perform;
    ReachableOk(w);
    var w1 := Next(w, Do(first));
    var d' := Run(w1, labels).db;
    if Expects(w.db, first) == Some((x, r)) && Writes(first) && Perform(w.db, first).res.Ok?
       && Expects(d', second) == Some((x, r)) && Perform(d', second).res.Ok?
    {
      CompareAndSwap(w.db, first, x, r);
      StepKeepsWorld(w, Do(first));
      RunKeeps(w1, labels);
      LoadLater(w1.db, d', x);
      CompareAndSwap(d', second, x, r);
      SameRevision(w1.db, d', x);
      assert false;
    }
  }

  lemma SameRevision(d: Db, d': Db, x: Id)
    requires SameTracked(d, d', x)
    ensures RevisionOf(d, x).Some? ==> RevisionOf(d', x) == RevisionOf(d, x)
  {
  }

  // ------------------------------------------------------------------ and the loser is told

  /** The call reaches its revision check: what it names is there and of its kind, and nothing it checks earlier fails. */
  predicate Addressed(d: Db, c: Call) {
    match c
    case OfWork(w) => WorkAddressed(d, w)
    case OfAction(a) => ActionAddressed(d, a)
    case OfObligation(o) => (
      match o
      case Abandon(i, human, _) => i in d.obligations && human
      case Resolve(i, _, _) => i in d.obligations
      case _ => false)
    case OfRepair(r) => (
      match r
      case RepairObject(i, _, _, justified) => justified && (Load(d, i) != NoObject || i in d.obligations)
      case AbandonUnrepairable(i, _) => i in d.goals || i in d.tasks || i in d.actions)
    case _ => false
  }

  predicate WorkAddressed(d: Db, w: WorkCall) {
    match w
    case CreateTask(g, _, _, _, _) => g in d.goals
    case AddDependency(p, _, _, _) => p in d.plans
    case CreatePlanWithSteps(_, t, _, _) => t in d.tasks
    case ActivatePlan(t, _, _) => t in d.tasks
    case SupersedePlan(t, _, _, _) => t in d.tasks
    case Archive(o, _) => o in d.goals || o in d.tasks
    case CompleteStep(s, _) => s in d.steps
    case Complete(o, _, _) => Load(d, o) != NoObject
    case CancelTask(o, _) => Load(d, o) != NoObject
    case CancelGoal(o, _) => Load(d, o) != NoObject
    case Transition(o, _, _) => Load(d, o) != NoObject
    case _ => false
  }

  predicate ActionAddressed(d: Db, a: ActionCall) {
    match a
    case CreateAction(s, _, _, _, _, _, _) => s in d.steps && d.steps[s].status !in {SCancelled, SSkipped, SCompleted}
    case Retry(i, _) => i in d.actions && d.actions[i].status in {AUnknown, AFailed}
    case FreezeAction(_) => false
    case _ => a.action in d.actions
  }

  lemma StaleWorkIsTold(d: Db, w: WorkCall, x: Id, e: nat)
    requires Inv(d) && Expects(d, OfWork(w)) == Some((x, e)) && WorkAddressed(d, w) && RevisionOf(d, x) != Some(e)
    ensures Work.Apply(d, w) == Reject(d, StaleRevision)
  {
    hide Inv, RevisionOf, Load, EvaluateCompletion, AllRequiredPass, GoalChildren, TaskChildren, TasksDone, StepsDone,
         TerminalCommit, AcceptedPlan, ProposalFault, ProposalGraph, GoalNext, TaskNext, PlanNext, StepNext;
    RevisionsByTable(d, x);
    LoadByTable(d, x);
    LoadHas(d, x);
  }

  lemma LoadHas(d: Db, x: Id)
    ensures Load(d, x) == NoObject <==> x !in d.goals && x !in d.tasks && x !in d.plans && x !in d.steps && x !in d.actions
  {
  }

  lemma StaleActionIsTold(d: Db, a: ActionCall, x: Id, e: nat)
    requires Inv(d) && Expects(d, OfAction(a)) == Some((x, e)) && ActionAddressed(d, a) && RevisionOf(d, x) != Some(e)
    ensures Execution.Apply(d, a) == Reject(d, StaleRevision)
  {
    hide Inv, RevisionOf, PlanMismatchReason, GateOpens, OwningTask;
    RevisionsByTable(d, x);
    if a.Retry? { RetryFindsTask(d, a.action); }
  }

  lemma RetryFindsTask(d: Db, a: Id)
    requires Inv(d) && a in d.actions && OwningTask(d, d.actions[a]).Some?
    ensures OwningTask(d, d.actions[a]).value in d.tasks
  {
    hide Inv;
    InvHas(d, PlansAcyclic);
  }

  lemma StaleRepairIsTold(d: Db, r: RepairCall, x: Id, e: nat)
    requires Inv(d) && Expects(d, OfRepair(r)) == Some((x, e)) && Addressed(d, OfRepair(r)) && RevisionOf(d, x) != Some(e)
    ensures Repair.Apply(d, r) == Reject(d, StaleRepair)
  {
    hide Inv, RevisionOf, Load, Settle, PlanAggregateOk, TaskAggregateOk, FixGoal, FixTask, FixPlan, FixStep, FixAction,
         FixObligation, Observed;
    RevisionsByTable(d, x);
    LoadByTable(d, x);
    LoadHas(d, x);
  }

  /** A call whose staked revision is not the object's any more is told so, whatever else it asks for, and writes nothing: the
      loser of a race gets STALE_REVISION, or STALE_REPAIR for a repair. */
  lemma StaleIsTold(d: Db, c: Call, x: Id, e: nat)
    requires Inv(d) && Expects(d, c) == Some((x, e)) && Addressed(d, c) && RevisionOf(d, x) != Some(e)
    ensures Perform(d, c) == Reject(d, if c.OfRepair? then StaleRepair else StaleRevision)
  {
    hide Inv, RevisionOf, Work.Apply, Execution.Apply, Repair.Apply, WorkAddressed, ActionAddressed, Concerns;
    match c
    case OfWork(w) => StaleWorkIsTold(d, w, x, e);
    case OfAction(a) => StaleActionIsTold(d, a, x, e);
    case OfRepair(r) => StaleRepairIsTold(d, r, x, e);
    case OfObligation(o) => RevisionsByTable(d, x);
    case _ =>
  }
}
