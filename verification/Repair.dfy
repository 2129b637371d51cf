/** Integrity repair (v5/repair.py): the one sanctioned way around the transition tables. */
module Repair {
  import opened Types
  import opened Graphs
  import opened Obligations
  import opened Execution

  /** A dependency_graph as handed in: a {step: [deps]} mapping, or something that is none. */
  datatype ProposedGraph = Mapping(graph: Graph) | Malformed

  /** The whitelisted fields a repair may set, per object kind; None leaves a field alone. */
  datatype Target =
    | GoalFix(gStatus: Option<GoalStatus>, gIntegrity: Option<Integrity>, gPolicy: Option<Policy>)
    | TaskFix(tStatus: Option<TaskStatus>, tIntegrity: Option<Integrity>, tPlan: Option<Option<Id>>,
              tPolicy: Option<Policy>, tBudget: Option<(int, int)>)
    | PlanFix(pStatus: Option<PlanStatus>, pSupersededBy: Option<Option<Id>>, pGraph: Option<ProposedGraph>)
    | StepFix(sStatus: Option<StepStatus>, sRequired: Option<bool>)
    | ActionFix(aStatus: Option<ActionStatus>, aIntegrity: Option<Integrity>, aConfirmation: Option<Option<Id>>)
    | VerificationFix(vResult: Option<VerificationResult>)
    | ObligationFix(oOwner: Option<Owner>, oDisposition: Option<Disposition>)

  datatype RepairCall =
    | RepairObject(obj: Id, expected: nat, target: Target, justified: bool)
    | AbandonUnrepairable(obj: Id, expected: nat)

  function Or<T>(o: Option<T>, old_: T): T { if o.Some? then o.value else old_ }

  /** A successful repair that does not set integrity unfreezes. */
  function Unfrozen(fix: Option<Integrity>, was: Integrity): Integrity {
    if fix.Some? then fix.value else if was == Frozen then Sound else was
  }

  function FixGoal(g: Goal, t: Target): Goal
    requires t.GoalFix?
  {
    Goal(g.revision + 1, Or(t.gStatus, g.status), Or(t.gPolicy, g.policy), Unfrozen(t.gIntegrity, g.integrity))
  }

  function FixTask(k: Task, t: Target): Task
    requires t.TaskFix?
  {
    var budget := Or(t.tBudget, (k.maxAttempts, k.attemptsUsed));
    Task(k.revision + 1, k.goalId, Or(t.tStatus, k.status), Or(t.tPlan, k.activePlan),
         Or(t.tPolicy, k.policy), budget.0, budget.1, Unfrozen(t.tIntegrity, k.integrity))
  }

  function FixPlan(p: Plan, t: Target): Plan
    requires t.PlanFix?
  {
    Plan(p.revision + 1, p.taskId, Or(t.pStatus, p.status), Or(t.pSupersededBy, p.supersededBy),
         if t.pGraph.Some? && t.pGraph.value.Mapping? then t.pGraph.value.graph else p.graph)
  }

  function FixStep(s: Step, t: Target): Step
    requires t.StepFix?
  {
    s.(revision := s.revision + 1, status := Or(t.sStatus, s.status), required := Or(t.sRequired, s.required))
  }

  function FixAction(a: Action, t: Target): Action
    requires t.ActionFix?
  {
    a.(revision := a.revision + 1, status := Or(t.aStatus, a.status),
       integrity := Unfrozen(t.aIntegrity, a.integrity), confirmationId := Or(t.aConfirmation, a.confirmationId))
  }

  function FixObligation(o: Obligation, t: Target): Obligation
    requires t.ObligationFix?
  {
    o.(revision := o.revision + 1, owner := Or(t.oOwner, o.owner), disposition := Or(t.oDisposition, o.disposition))
  }

  // _validate_aggregate, per kind
  predicate TaskAggregateOk(d: Db, id: Id, k: Task, t: Target)
    requires t.TaskFix?
  {
    t.tPlan.Some? ==>
      && (t.tPlan.value.Some? ==>
            var p := t.tPlan.value.value;
            p in d.plans && d.plans[p].taskId == id && d.plans[p].status in {PDraft, PBlocked})
      && (k.activePlan.Some? && k.activePlan != t.tPlan.value && k.activePlan.value in d.plans ==>
            Displaceable(d.plans[k.activePlan.value].status))
  }

  ghost predicate PlanAggregateOk(p: Plan, t: Target)
    requires t.PlanFix?
  {
    && (t.pStatus == Some(PSuperseded) ==>
          (t.pSupersededBy.Some? && t.pSupersededBy.value.Some?) || p.supersededBy.Some?)
    && (t.pGraph.Some? ==>
          && t.pGraph.value.Mapping?
          && (forall v :: v in t.pGraph.value.graph ==> v !in t.pGraph.value.graph[v])
          && Acyclic(t.pGraph.value.graph))
  }

  /** A verification's PASS cannot be manufactured. */
  predicate ResultHonest(v: Verification, t: Target)
    requires t.VerificationFix?
  {
    t.vResult == Some(VPass) ==> v.result == VPass
  }

  /** Terminal result: hand the obligations over in the same commit. */
  function Settle(d: Db, id: Id, terminal: bool): (r: Tx)
    ensures r.res.Ok? && r.db == d.(obligations := r.db.obligations)
  {
    if terminal then Tx(MoveSubtree(d, id), Ok(None, |Subtree(d, id)|)) else Done(d)
  }

  /** Verifications and obligations; a verification has no revision to check. */
  function RepairRecordTx(d: Db, id: Id, expected: nat, t: Target): (r: Tx)
    ensures r.db == d.(verifications := r.db.verifications, obligations := r.db.obligations)
    ensures r.db.verifications == d.verifications
         || (id in d.verifications && t.VerificationFix? && r.db.verifications
               == d.verifications[id := d.verifications[id].(result := Or(t.vResult, d.verifications[id].result))])
  {
    if id in d.verifications then
      var v := d.verifications[id];
      if !t.VerificationFix? then Reject(d, FieldForbidden)
      else if !ResultHonest(v, t) then Reject(d, Fabrication)
      else Done(d.(verifications := d.verifications[id := v.(result := Or(t.vResult, v.result))]))
    else if id in d.obligations then
      var o := d.obligations[id];
      if o.revision != expected then Reject(d, StaleRepair)
      else if !t.ObligationFix? then Reject(d, FieldForbidden)
      else if t.oOwner.Some? && !ValidOwner(d, t.oOwner.value) then Reject(d, AggregateInvalid)
      else Done(d.(obligations := d.obligations[id := FixObligation(o, t)]))
    else Reject(d, NotFound)
  }

  function RepairGoalTx(d: Db, id: Id, expected: nat, t: Target): (r: Tx)
    requires id in d.goals
    ensures r.db == d.(goals := r.db.goals, obligations := r.db.obligations)
  {
    var g := d.goals[id];
    if g.revision != expected then Reject(d, StaleRepair)
    else if !t.GoalFix? then Reject(d, FieldForbidden)
    else
      var fixed := FixGoal(g, t);
      Settle(d.(goals := d.goals[id := fixed]), id, GoalTerminal(fixed.status))
  }

  function RepairTaskTx(d: Db, id: Id, expected: nat, t: Target): (r: Tx)
    requires id in d.tasks
    ensures r.db == d.(tasks := r.db.tasks, obligations := r.db.obligations)
  {
    var k := d.tasks[id];
    if k.revision != expected then Reject(d, StaleRepair)
    else if !t.TaskFix? then Reject(d, FieldForbidden)
    else if !TaskAggregateOk(d, id, k, t) then Reject(d, AggregateInvalid)
    else
      var fixed := FixTask(k, t);
      Settle(d.(tasks := d.tasks[id := fixed]), id, TaskTerminal(fixed.status))
  }

  ghost function RepairPlanTx(d: Db, id: Id, expected: nat, t: Target): (r: Tx)
    requires id in d.plans
    ensures r.db == d.(plans := r.db.plans, obligations := r.db.obligations)
  {
    var p := d.plans[id];
    if p.revision != expected then Reject(d, StaleRepair)
    else if !t.PlanFix? then Reject(d, FieldForbidden)
    else if !PlanAggregateOk(p, t) then Reject(d, AggregateInvalid)
    else
      var fixed := FixPlan(p, t);
      Settle(d.(plans := d.plans[id := fixed]), id, PlanTerminal(fixed.status))
  }

  function RepairStepTx(d: Db, id: Id, expected: nat, t: Target): (r: Tx)
    requires id in d.steps
    ensures r.db == d.(steps := r.db.steps, obligations := r.db.obligations)
  {
    var s := d.steps[id];
    if s.revision != expected then Reject(d, StaleRepair)
    else if !t.StepFix? then Reject(d, FieldForbidden)
    else
      var fixed := FixStep(s, t);
      Settle(d.(steps := d.steps[id := fixed]), id, StepTerminal(fixed.status))
  }

  function RepairActionTx(d: Db, id: Id, expected: nat, t: Target): (r: Tx)
    requires id in d.actions
    ensures r.db == d.(actions := r.db.actions, obligations := r.db.obligations)
  {
    var a := d.actions[id];
    if a.revision != expected then Reject(d, StaleRepair)
    else if !t.ActionFix? then Reject(d, FieldForbidden)
    else if t.aStatus == Some(AObserved) && !Observed(d, id) then Reject(d, Fabrication)
    else
      var fixed := FixAction(a, t);
      Settle(d.(actions := d.actions[id := fixed]), id, ActionTerminal(fixed.status))
  }

  ghost function RepairTx(d: Db, id: Id, expected: nat, t: Target, justified: bool): (r: Tx)
    ensures r.db == d.(goals := r.db.goals, tasks := r.db.tasks, plans := r.db.plans, steps := r.db.steps,
                       actions := r.db.actions, verifications := r.db.verifications, obligations := r.db.obligations)
    ensures !Load(d, id).AnAction? ==> r.db.actions == d.actions
  {
    if !justified then Reject(d, NeedsReason)
    else match Load(d, id)
      case AGoal(_) => RepairGoalTx(d, id, expected, t)
      case ATask(_) => RepairTaskTx(d, id, expected, t)
      case APlan(_) => RepairPlanTx(d, id, expected, t)
      case AStep(_) => RepairStepTx(d, id, expected, t)
      case AnAction(_) => RepairActionTx(d, id, expected, t)
      case NoObject => RepairRecordTx(d, id, expected, t)
  }

  function AbandonUnrepairableTx(d: Db, id: Id, expected: nat): (r: Tx)
    ensures r.db == d.(goals := r.db.goals, tasks := r.db.tasks, actions := r.db.actions, obligations := r.db.obligations)
  {
    match Load(d, id)
    case AGoal(g) =>
      if g.revision != expected then Reject(d, StaleRepair)
      else if g.integrity == AbandonedUnrepairable then Reject(d, AlreadyAbandoned)
      else Settle(d.(goals := d.goals[id := g.(integrity := AbandonedUnrepairable, revision := g.revision + 1)]), id, true)
    case ATask(k) =>
      if k.revision != expected then Reject(d, StaleRepair)
      else if k.integrity == AbandonedUnrepairable then Reject(d, AlreadyAbandoned)
      else Settle(d.(tasks := d.tasks[id := k.(integrity := AbandonedUnrepairable, revision := k.revision + 1)]), id, true)
    case AnAction(a) =>
      if a.revision != expected then Reject(d, StaleRepair)
      else if a.integrity == AbandonedUnrepairable then Reject(d, AlreadyAbandoned)
      else Settle(d.(actions := d.actions[id := a.(integrity := AbandonedUnrepairable, revision := a.revision + 1)]), id, true)
    case NoObject =>
      if id in d.verifications || id in d.obligations then Reject(d, InvalidTransition) else Reject(d, NotFound)
    case _ => Reject(d, InvalidTransition)
  }

  ghost function Apply(d: Db, c: RepairCall): Tx {
    match c
    case RepairObject(id, e, t, j) => RepairTx(d, id, e, t, j)
    case AbandonUnrepairable(id, e) => AbandonUnrepairableTx(d, id, e)
  }
}
