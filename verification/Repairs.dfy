/** What a repair does to the row it repairs (v5/repair.py:71-260), read off its target: exactly when it commits, every field
    it names, every field it leaves, and the hand-over it ends with. */
module Repairs {
  import opened Types
  import opened Graphs
  import opened Obligations
  import opened Repair
  import opened Invariants
  import opened RowWrites
  import opened Transfers
  import opened Revisions

  /** A field the target names has its value, any other one is as it was. */
  predicate Sets<T(==)>(fix: Option<T>, was: T, now: T) {
    (fix.Some? ==> now == fix.value) && (fix.None? ==> now == was)
  }

  /** Integrity likewise, only that a FROZEN row whose integrity is not named ends sound. */
  predicate SetsIntegrity(fix: Option<Integrity>, was: Integrity, now: Integrity) {
    if fix.None? && was == Frozen then now == Sound else Sets(fix, was, now)
  }

  predicate GoalRepaired(x: Goal, t: Target, y: Goal)
    requires t.GoalFix?
  {
    && y.revision == x.revision + 1
    && Sets(t.gStatus, x.status, y.status) && Sets(t.gPolicy, x.policy, y.policy)
    && SetsIntegrity(t.gIntegrity, x.integrity, y.integrity)
  }

  predicate TaskRepaired(x: Task, t: Target, y: Task)
    requires t.TaskFix?
  {
    && y.revision == x.revision + 1 && y.goalId == x.goalId
    && Sets(t.tStatus, x.status, y.status) && Sets(t.tPlan, x.activePlan, y.activePlan) && Sets(t.tPolicy, x.policy, y.policy)
    && Sets(t.tBudget, (x.maxAttempts, x.attemptsUsed), (y.maxAttempts, y.attemptsUsed))
    && SetsIntegrity(t.tIntegrity, x.integrity, y.integrity)
  }

  predicate PlanRepaired(x: Plan, t: Target, y: Plan)
    requires t.PlanFix?
  {
    && y.revision == x.revision + 1 && y.taskId == x.taskId
    && Sets(t.pStatus, x.status, y.status) && Sets(t.pSupersededBy, x.supersededBy, y.supersededBy)
    && Sets(t.pGraph, Mapping(x.graph), Mapping(y.graph))
  }

  predicate StepRepaired(x: Step, t: Target, y: Step)
    requires t.StepFix?
  {
    && y.revision == x.revision + 1 && y.planId == x.planId && y.dependsOn == x.dependsOn && y.capability == x.capability
    && Sets(t.sStatus, x.status, y.status) && Sets(t.sRequired, x.required, y.required)
  }

  predicate ActionRepaired(x: Action, t: Target, y: Action)
    requires t.ActionFix?
  {
    && y.revision == x.revision + 1 && SameAttempt(x, y)
    && Sets(t.aStatus, x.status, y.status) && Sets(t.aConfirmation, x.confirmationId, y.confirmationId)
    && SetsIntegrity(t.aIntegrity, x.integrity, y.integrity)
  }

  predicate ObligationRepaired(x: Obligation, t: Target, y: Obligation)
    requires t.ObligationFix?
  {
    && y.revision == x.revision + 1 && y.origin == x.origin && y.history == x.history
    && Sets(t.oOwner, x.owner, y.owner) && Sets(t.oDisposition, x.disposition, y.disposition)
  }

  /** What stands in a field once the repair is done. */
  function After<T>(fix: Option<T>, was: T): T { if fix.Some? then fix.value else was }

  /** The answer of a repair that leaves the obligations alone. */
  predicate MovesNothing(d: Db, r: Tx) { r.res == Ok(None, 0) && r.db.obligations == d.obligations }

  // ------------------------------------------------------------------------- goals and tasks

  /** Repairing a goal: accepted exactly with a reason, at the expected revision and with goal fields; the row is repaired
      field by field, no other row is, and what is OPEN below it is handed over exactly when the status it ends with is
      terminal. */
  lemma GoalRepair(d: Db, id: Id, expected: nat, t: Target, justified: bool)
    requires Inv(d) && id in d.goals
    ensures var r := Repair.Apply(d, RepairObject(id, expected, t, justified));
            && (r.res.Ok? <==> justified && d.goals[id].revision == expected && t.GoalFix?)
            && (!r.res.Ok? ==> r.db == d)
            && (r.res.Ok? ==>
                  && id in r.db.goals && GoalRepaired(d.goals[id], t, r.db.goals[id])
                  && r.db == d.(goals := d.goals[id := r.db.goals[id]], obligations := r.db.obligations)
                  && if After(t.gStatus, d.goals[id].status) in {GCompleted, GCancelled, GArchived}
                     then HandsAllOver(d, r, id) else MovesNothing(d, r))
  {
    hide Inv, HandsAllOver, Subtree, MoveSubtree, HandsOver;
    if justified && d.goals[id].revision == expected && t.GoalFix? {
      GoalCommitHandsOver(d, id, FixGoal(d.goals[id], t));
      HandedOver(d, d.(goals := d.goals[id := FixGoal(d.goals[id], t)]), id);
    }
  }

  lemma HandedOver(d: Db, d1: Db, obj: Id)
    requires |Subtree(d1, obj)| == |OpenUnder(d, obj)| && HandsOver(d, MoveSubtree(d1, obj), OpenUnder(d, obj))
    requires OpenUnder(MoveSubtree(d1, obj), obj) == {}
    ensures HandsAllOver(d, Settle(d1, obj, true), obj)
  {
    hide HandsOver, OpenUnder, Subtree, MoveSubtree;
  }

  /** What a repaired pointer may be: null or a DRAFT or BLOCKED plan of the task, and unless it stays, the plan it leaves
      is SUPERSEDED, CANCELLED or FAILED. */
  predicate PointerAllowed(d: Db, task: Id, to: Option<Id>)
    requires task in d.tasks
  {
    && (to.Some? ==> to.value in d.plans && d.plans[to.value].taskId == task && d.plans[to.value].status in {PDraft, PBlocked})
    && (forall p :: p in d.plans && d.tasks[task].activePlan == Some(p) && to != Some(p) ==>
          d.plans[p].status in {PSuperseded, PCancelled, PFailed})
  }

  lemma AggregateMeans(d: Db, task: Id, t: Target)
    requires task in d.tasks && t.TaskFix?
    ensures TaskAggregateOk(d, task, d.tasks[task], t) <==> (t.tPlan.Some? ==> PointerAllowed(d, task, t.tPlan.value))
  {
  }

  /** Repairing a task likewise; a pointer it names must be allowed. */
  lemma TaskRepair(d: Db, id: Id, expected: nat, t: Target, justified: bool)
    requires Inv(d) && id in d.tasks
    ensures var r := Repair.Apply(d, RepairObject(id, expected, t, justified));
            && (r.res.Ok? <==> && justified && d.tasks[id].revision == expected && t.TaskFix?
                               && (t.tPlan.Some? ==> PointerAllowed(d, id, t.tPlan.value)))
            && (!r.res.Ok? ==> r.db == d)
            && (r.res.Ok? ==>
                  && id in r.db.tasks && TaskRepaired(d.tasks[id], t, r.db.tasks[id])
                  && r.db == d.(tasks := d.tasks[id := r.db.tasks[id]], obligations := r.db.obligations)
                  && if After(t.tStatus, d.tasks[id].status) in {TCompleted, TFailed, TCancelled, TArchived}
                     then HandsAllOver(d, r, id) else MovesNothing(d, r))
  {
    hide Inv, Repair.Apply, HandsAllOver, Subtree, MoveSubtree, HandsOver, PointerAllowed, FixTask, TaskRepaired;
    TaskRepairSettles(d, id, expected, t, justified);
    if TaskRepairable(d, id, expected, t, justified) {
      FixedTask(d.tasks[id], t);
      if t.tPlan.Some? { AllowedIsSound(d, id, t.tPlan.value); }
      TaskCommitHandsOver(d, id, FixTask(d.tasks[id], t));
      HandedOver(d, d.(tasks := d.tasks[id := FixTask(d.tasks[id], t)]), id);
    }
  }

  predicate TaskRepairable(d: Db, id: Id, expected: nat, t: Target, justified: bool)
    requires id in d.tasks
  {
    && justified && d.tasks[id].revision == expected && t.TaskFix?
    && (t.tPlan.Some? ==> PointerAllowed(d, id, t.tPlan.value))
  }

  lemma TaskRepairSettles(d: Db, id: Id, expected: nat, t: Target, justified: bool)
    requires Inv(d) && id in d.tasks
    ensures var r := Repair.Apply(d, RepairObject(id, expected, t, justified));
            if TaskRepairable(d, id, expected, t, justified)
            then r == Settle(d.(tasks := d.tasks[id := FixTask(d.tasks[id], t)]), id, TaskTerminal(FixTask(d.tasks[id], t).status))
            else !r.res.Ok? && r.db == d
  {
    hide Inv, Settle, FixTask, TaskAggregateOk, PointerAllowed;
    LoadByTable(d, id);
    if t.TaskFix? { AggregateMeans(d, id, t); }
  }

  lemma FixedTask(x: Task, t: Target)
    requires t.TaskFix?
    ensures TaskRepaired(x, t, FixTask(x, t)) && FixTask(x, t).status == After(t.tStatus, x.status)
    ensures TaskStep(x, FixTask(x, t)) && FixTask(x, t).activePlan == After(t.tPlan, x.activePlan)
  {
  }

  lemma AllowedIsSound(d: Db, task: Id, to: Option<Id>)
    requires task in d.tasks && PointerAllowed(d, task, to)
    ensures to.Some? ==> to.value in d.plans && d.plans[to.value].taskId == task
  {
  }

  /** The case the repair suite turns on: an ACTIVE or otherwise unfinished task repaired to a terminal status ends there,
      and every OPEN obligation below it is the registry's in the same commit, counted. */
  lemma TerminalTargetHandsOver(d: Db, task: Id, status: TaskStatus)
    requires Inv(d) && task in d.tasks && status in {TCompleted, TFailed, TCancelled, TArchived}
    ensures var r := Repair.Apply(d, RepairObject(task, d.tasks[task].revision, TaskFix(Some(status), None, None, None, None), true));
            && r.res == Ok(None, |OpenUnder(d, task)|)
            && task in r.db.tasks && r.db.tasks[task].status == status && OpenUnder(r.db, task) == {}
            && forall o :: o in OpenUnder(d, task) ==>
                 o in r.db.obligations && r.db.obligations[o].owner == Uor && r.db.obligations[o].disposition == Open
  {
    hide Inv, Repair.Apply, OpenUnder;
    TaskRepair(d, task, d.tasks[task].revision, TaskFix(Some(status), None, None, None, None), true);
    var r := Repair.Apply(d, RepairObject(task, d.tasks[task].revision, TaskFix(Some(status), None, None, None, None), true));
    forall o | o in OpenUnder(d, task)
      ensures o in r.db.obligations && r.db.obligations[o].owner == Uor && r.db.obligations[o].disposition == Open
    {
      assert o in r.db.obligations.Keys;
    }
  }

  // ------------------------------------------------------------- plans, steps, actions

  /** Nothing is owned below a plan, step or action. */
  lemma NothingBelow(d: Db, d1: Db, id: Id)
    requires Inv(d) && id !in d.goals && id !in d.tasks && d1.tasks == d.tasks && d1.obligations == d.obligations
    ensures forall terminal :: Settle(d1, id, terminal) == Tx(d1, Ok(None, 0))
  {
    hide Inv;
    InvHas(d, ObligationsSound);
    InvHas(d, TasksSound);
    assert Subtree(d1, id) == {};
    assert MovedToUor(d1, {}).obligations == d1.obligations;
  }

  /** Repairing a plan: a plan named SUPERSEDED needs a successor, a graph must be a mapping without cycle. */
  lemma PlanRepair(d: Db, id: Id, expected: nat, t: Target, justified: bool)
    requires Inv(d) && id in d.plans
    ensures var r := Repair.Apply(d, RepairObject(id, expected, t, justified));
            && (r.res.Ok? <==>
                  && justified && d.plans[id].revision == expected && t.PlanFix?
                  && (t.pStatus == Some(PSuperseded) ==>
                        (t.pSupersededBy.Some? && t.pSupersededBy.value.Some?) || d.plans[id].supersededBy.Some?)
                  && (t.pGraph.Some? ==> t.pGraph.value.Mapping? && Acyclic(t.pGraph.value.graph)))
            && (!r.res.Ok? ==> r.db == d)
            && (r.res.Ok? ==>
                  && id in r.db.plans && PlanRepaired(d.plans[id], t, r.db.plans[id])
                  && r.db == d.(plans := d.plans[id := r.db.plans[id]]) && MovesNothing(d, r))
  {
    hide Inv, Settle, Acyclic, PlanAggregateOk;
    LoadByTable(d, id);
    if t.PlanFix? {
      SuccessorAndGraph(d.plans[id], t);
      NothingBelow(d, d.(plans := d.plans[id := FixPlan(d.plans[id], t)]), id);
    }
  }

  lemma SuccessorAndGraph(p: Plan, t: Target)
    requires t.PlanFix?
    ensures PlanAggregateOk(p, t) <==>
              && (t.pStatus == Some(PSuperseded) ==> (t.pSupersededBy.Some? && t.pSupersededBy.value.Some?) || p.supersededBy.Some?)
              && (t.pGraph.Some? ==> t.pGraph.value.Mapping? && Acyclic(t.pGraph.value.graph))
  {
    if t.pGraph.Some? && t.pGraph.value.Mapping? && Acyclic(t.pGraph.value.graph) {
      NoSelfDependency(t.pGraph.value.graph);
    }
  }

  lemma NoSelfDependency(g: Graph)
    requires Acyclic(g)
    ensures forall v :: v in g ==> v !in g[v]
  {
    forall v | v in g ensures v !in g[v] {
      if v in g[v] { SelfDependencyCycles(g, v); }
    }
  }

  lemma SelfDependencyCycles(g: Graph, v: Id)
    requires v in g && v in g[v]
    ensures !Acyclic(g)
  {
    assert IsPathBetween(g, [v, v], v, v);
    assert OnCycle(g, v);
  }

  /** Repairing a step. */
  lemma StepRepair(d: Db, id: Id, expected: nat, t: Target, justified: bool)
    requires Inv(d) && id in d.steps
    ensures var r := Repair.Apply(d, RepairObject(id, expected, t, justified));
            && (r.res.Ok? <==> justified && d.steps[id].revision == expected && t.StepFix?)
            && (!r.res.Ok? ==> r.db == d)
            && (r.res.Ok? ==>
                  && id in r.db.steps && StepRepaired(d.steps[id], t, r.db.steps[id])
                  && r.db == d.(steps := d.steps[id := r.db.steps[id]]) && MovesNothing(d, r))
  {
    hide Inv, Settle;
    LoadByTable(d, id);
    if t.StepFix? { NothingBelow(d, d.(steps := d.steps[id := FixStep(d.steps[id], t)]), id); }
  }

  /** Repairing an action: OBSERVED only when an Observation of it exists. */
  lemma ActionRepair(d: Db, id: Id, expected: nat, t: Target, justified: bool)
    requires Inv(d) && id in d.actions
    ensures var r := Repair.Apply(d, RepairObject(id, expected, t, justified));
            && (r.res.Ok? <==>
                  && justified && d.actions[id].revision == expected && t.ActionFix?
                  && (t.aStatus == Some(AObserved) ==> exists o :: o in d.observations && d.observations[o].actionId == id))
            && (!r.res.Ok? ==> r.db == d)
            && (r.res.Ok? ==>
                  && id in r.db.actions && ActionRepaired(d.actions[id], t, r.db.actions[id])
                  && r.db == d.(actions := d.actions[id := r.db.actions[id]]) && MovesNothing(d, r))
  {
    hide Inv, Settle;
    LoadByTable(d, id);
    if t.ActionFix? { NothingBelow(d, d.(actions := d.actions[id := FixAction(d.actions[id], t)]), id); }
  }

  // ------------------------------------------------------- verifications and obligations

  /** Repairing a verification: its result alone, never to a PASS it does not have; there is no revision to stake. */
  lemma VerificationRepair(d: Db, id: Id, expected: nat, t: Target, justified: bool)
    requires Inv(d) && id in d.verifications
    ensures var r := Repair.Apply(d, RepairObject(id, expected, t, justified));
            && (r.res.Ok? <==>
                  justified && t.VerificationFix? && (t.vResult == Some(VPass) ==> d.verifications[id].result == VPass))
            && (!r.res.Ok? ==> r.db == d)
            && (r.res.Ok? ==>
                  && id in r.db.verifications && Sets(t.vResult, d.verifications[id].result, r.db.verifications[id].result)
                  && r.db == d.(verifications := d.verifications[id :=
                               d.verifications[id].(result := r.db.verifications[id].result)])
                  && MovesNothing(d, r))
  {
    hide Inv;
    LoadsNothing(d, id);
  }

  lemma LoadsNothing(d: Db, id: Id)
    requires Inv(d) && (id in d.verifications || id in d.obligations)
    ensures Load(d, id) == NoObject && !(id in d.verifications && id in d.obligations)
  {
    hide Inv;
    MintedKeys(d);
  }

  /** Repairing an obligation: an owner it names is the registry or an existing task; no event is written. */
  lemma ObligationRepair(d: Db, id: Id, expected: nat, t: Target, justified: bool)
    requires Inv(d) && id in d.obligations
    ensures var r := Repair.Apply(d, RepairObject(id, expected, t, justified));
            && (r.res.Ok? <==>
                  && justified && d.obligations[id].revision == expected && t.ObligationFix?
                  && (t.oOwner.Some? ==> t.oOwner.value == Uor || t.oOwner.value.id in d.tasks))
            && (!r.res.Ok? ==> r.db == d)
            && (r.res.Ok? ==>
                  && id in r.db.obligations && ObligationRepaired(d.obligations[id], t, r.db.obligations[id])
                  && r.db == d.(obligations := d.obligations[id := r.db.obligations[id]]) && r.res == Ok(None, 0))
  {
    hide Inv, Load;
    LoadsNothing(d, id);
    ObligationRecord(d, id, expected, t);
  }

  lemma ObligationRecord(d: Db, id: Id, expected: nat, t: Target)
    requires id in d.obligations && id !in d.verifications
    ensures var r := RepairRecordTx(d, id, expected, t);
            if d.obligations[id].revision == expected && t.ObligationFix?
               && (t.oOwner.Some? ==> t.oOwner.value == Uor || t.oOwner.value.id in d.tasks)
            then r == Done(d.(obligations := d.obligations[id := FixObligation(d.obligations[id], t)]))
            else r.db == d && !r.res.Ok?
  {
    hide FixObligation;
  }

  // ------------------------------------------------------------------------------ giving up

  /** Giving up: accepted exactly for a goal, task or action at the expected revision that was not given up before; the row
      gets that integrity and keeps its status, and what is OPEN below a goal or task is handed over. */
  lemma GivingUp(d: Db, id: Id, expected: nat)
    requires Inv(d)
    ensures var r := Repair.Apply(d, AbandonUnrepairable(id, expected));
            && (r.res.Ok? <==> CanGiveUp(d, id, expected))
            && (!r.res.Ok? ==> r.db == d)
            && (r.res.Ok? ==> GivenUp(d, r.db, id) && HandsAllOver(d, r, id))
  {
    hide Inv, AbandonUnrepairableTx, HandsAllOver, GivenUp;
    GiveUpIff(d, id, expected);
    if AbandonUnrepairableTx(d, id, expected).res.Ok? {
      if id in d.goals || id in d.tasks {
        AbandoningHandsOver(d, id, expected);
      } else {
        assert HandsAllOver(d, AbandonUnrepairableTx(d, id, expected), id) by {
          ActionGivenUp(d, id, expected);
        }
      }
    }
  }

  /** The row is given up, its status and every other row as before; only obligations move beside it. */
  predicate GivenUp(d: Db, d': Db, id: Id) {
    || (id in d.goals && d' == d.(obligations := d'.obligations,
          goals := d.goals[id := d.goals[id].(integrity := AbandonedUnrepairable, revision := d.goals[id].revision + 1)]))
    || (id in d.tasks && d' == d.(obligations := d'.obligations,
          tasks := d.tasks[id := d.tasks[id].(integrity := AbandonedUnrepairable, revision := d.tasks[id].revision + 1)]))
    || (id in d.actions && d' == d.(obligations := d'.obligations,
          actions := d.actions[id := d.actions[id].(integrity := AbandonedUnrepairable, revision := d.actions[id].revision + 1)]))
  }

  /** The rows that can be given up at this revision. */
  predicate CanGiveUp(d: Db, id: Id, expected: nat) {
    || (id in d.goals && d.goals[id].revision == expected && d.goals[id].integrity != AbandonedUnrepairable)
    || (id in d.tasks && d.tasks[id].revision == expected && d.tasks[id].integrity != AbandonedUnrepairable)
    || (id in d.actions && d.actions[id].revision == expected && d.actions[id].integrity != AbandonedUnrepairable)
  }

  lemma GiveUpIff(d: Db, id: Id, expected: nat)
    requires Inv(d)
    ensures var r := AbandonUnrepairableTx(d, id, expected);
            && (r.res.Ok? <==> CanGiveUp(d, id, expected))
            && (if r.res.Ok? then GivenUp(d, r.db, id) else r.db == d)
  {
    hide Inv, GivenUp, Settle;
    LoadByTable(d, id);
    KindsApart(d, id);
    if AbandonUnrepairableTx(d, id, expected).res.Ok? { GiveUpWrites(d, id, expected); }
  }

  lemma KindsApart(d: Db, id: Id)
    requires Inv(d)
    ensures !(id in d.goals && id in d.tasks) && !(id in d.goals && id in d.actions) && !(id in d.tasks && id in d.actions)
  {
    hide Inv;
    MintedKeys(d);
  }

  lemma GiveUpWrites(d: Db, id: Id, expected: nat)
    requires AbandonUnrepairableTx(d, id, expected).res.Ok?
    ensures GivenUp(d, AbandonUnrepairableTx(d, id, expected).db, id)
  {
    hide AbandonUnrepairableTx, GivenUp;
    match Load(d, id)
    case AGoal(g) => GiveGoalUp(d, id, expected); GoalGivenUp(d, AbandonUnrepairableTx(d, id, expected).db, id);
    case ATask(t) => GiveTaskUp(d, id, expected); TaskGivenUp(d, AbandonUnrepairableTx(d, id, expected).db, id);
    case AnAction(a) => GiveActionUp(d, id, expected); ActionRowGivenUp(d, AbandonUnrepairableTx(d, id, expected).db, id);
    case _ => OthersKept(d, id, expected);
  }

  lemma OthersKept(d: Db, id: Id, expected: nat)
    requires !Load(d, id).AGoal? && !Load(d, id).ATask? && !Load(d, id).AnAction?
    ensures !AbandonUnrepairableTx(d, id, expected).res.Ok?
  {
  }

  lemma GiveGoalUp(d: Db, id: Id, expected: nat)
    requires AbandonUnrepairableTx(d, id, expected).res.Ok? && Load(d, id).AGoal?
    ensures var d' := AbandonUnrepairableTx(d, id, expected).db;
            && id in d.goals
            && d' == d.(goals := d.goals[id := d.goals[id].(integrity := AbandonedUnrepairable, revision := d.goals[id].revision + 1)],
                        obligations := d'.obligations)
  {
    hide Settle;
  }

  lemma GiveTaskUp(d: Db, id: Id, expected: nat)
    requires AbandonUnrepairableTx(d, id, expected).res.Ok? && Load(d, id).ATask?
    ensures var d' := AbandonUnrepairableTx(d, id, expected).db;
            && id in d.tasks
            && d' == d.(tasks := d.tasks[id := d.tasks[id].(integrity := AbandonedUnrepairable, revision := d.tasks[id].revision + 1)],
                        obligations := d'.obligations)
  {
    hide Settle;
  }

  lemma GiveActionUp(d: Db, id: Id, expected: nat)
    requires AbandonUnrepairableTx(d, id, expected).res.Ok? && Load(d, id).AnAction?
    ensures var d' := AbandonUnrepairableTx(d, id, expected).db;
            && id in d.actions
            && d' == d.(actions := d.actions[id := d.actions[id].(integrity := AbandonedUnrepairable, revision := d.actions[id].revision + 1)],
                        obligations := d'.obligations)
  {
    hide Settle;
  }

  lemma GoalGivenUp(d: Db, d': Db, id: Id)
    requires id in d.goals
    requires d' == d.(goals := d.goals[id := d.goals[id].(integrity := AbandonedUnrepairable, revision := d.goals[id].revision + 1)],
                      obligations := d'.obligations)
    ensures GivenUp(d, d', id)
  {
  }

  lemma TaskGivenUp(d: Db, d': Db, id: Id)
    requires id in d.tasks
    requires d' == d.(tasks := d.tasks[id := d.tasks[id].(integrity := AbandonedUnrepairable, revision := d.tasks[id].revision + 1)],
                      obligations := d'.obligations)
    ensures GivenUp(d, d', id)
  {
  }

  lemma ActionRowGivenUp(d: Db, d': Db, id: Id)
    requires id in d.actions
    requires d' == d.(actions := d.actions[id := d.actions[id].(integrity := AbandonedUnrepairable, revision := d.actions[id].revision + 1)],
                      obligations := d'.obligations)
    ensures GivenUp(d, d', id)
  {
  }

  lemma ActionGivenUp(d: Db, id: Id, expected: nat)
    requires Inv(d) && AbandonUnrepairableTx(d, id, expected).res.Ok? && id !in d.goals && id !in d.tasks
    ensures HandsAllOver(d, AbandonUnrepairableTx(d, id, expected), id)
  {
    hide Inv, Settle;
    var a := d.actions[id];
    NothingBelow(d, d.(actions := d.actions[id := a.(integrity := AbandonedUnrepairable, revision := a.revision + 1)]), id);
    NothingOpenBelow(d, id);
  }

  lemma NothingOpenBelow(d: Db, id: Id)
    requires Inv(d) && id !in d.goals && id !in d.tasks
    ensures OpenUnder(d, id) == {}
  {
    hide Inv;
    InvHas(d, ObligationsSound);
    InvHas(d, TasksSound);
  }
}
