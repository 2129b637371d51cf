/** Every operation of v5/work.py keeps the invariant. */
module WorkProofs {
  import opened Types
  import opened Graphs
  import opened Obligations
  import opened Work
  import opened Invariants
  import opened RowWrites

  // ------------------------------------------------------------------------------ creation

  lemma EmptyGraphAcyclic()
    ensures Acyclic(map[])
  {
    forall v ensures !OnCycle(map[], v) {
      if OnCycle(map[], v) { CycleHasKey(map[], v); }
    }
  }

  // --------------------------------------------------------------- rows rewritten in place

  lemma GoalReplaced(d: Db, id: Id, g: Goal)
    requires Inv(d) && id in d.goals && GoalStep(d.goals[id], g)
    ensures Keeps(d, d.(goals := d.goals[id := g]))
  {
    hide Inv, Keeps;
    MintedKeys(d);
    PutGoal(d, d, id, g);
  }

  lemma TaskReplaced(d: Db, id: Id, t: Task)
    requires Inv(d) && id in d.tasks && TaskStep(d.tasks[id], t)
    requires t.activePlan.Some? && t.activePlan != d.tasks[id].activePlan ==>
               t.activePlan.value in d.plans && d.plans[t.activePlan.value].taskId == id
    ensures Keeps(d, d.(tasks := d.tasks[id := t]))
  {
    hide Inv, Keeps, Acyclic, PlansOk, StepsOk;
    WorkFacts(d);
    PutTask(d, d, id, t);
  }

  lemma PlanReplaced(d: Db, id: Id, p: Plan)
    requires Inv(d) && id in d.plans && PlanStep(d.plans[id], p) && (p.graph == d.plans[id].graph || Acyclic(p.graph))
    ensures Keeps(d, d.(plans := d.plans[id := p]))
  {
    hide Inv, Keeps, Acyclic, TasksOk, StepsOk;
    WorkFacts(d);
    PutPlan(d, d, id, p);
  }

  lemma StepReplaced(d: Db, id: Id, s: Step)
    requires Inv(d) && id in d.steps && StepStep(d.steps[id], s)
    ensures Keeps(d, d.(steps := d.steps[id := s]))
  {
    hide Inv, Keeps, Acyclic, TasksOk, PlansOk;
    WorkFacts(d);
    PutStep(d, d, id, s);
  }

  lemma CreateKeeps(d: Db, c: WorkCall)
    requires Inv(d) && (c.CreateGoal? || c.CreateTask? || c.CreatePlan?)
    ensures Keeps(d, Work.Apply(d, c).db)
  {
    hide Inv, Keeps, AllMinted;
    MintedKeys(d);
    match c {
      case CreateGoal(policy) => NewGoalKeeps(d, Goal(0, GActive, policy, Sound));
      case CreateTask(g, policy, m, u, _) =>
        if g in d.goals { NewTaskKeeps(d, Task(0, g, TPending, None, policy, m, u, Sound)); }
      case CreatePlan(t) => if t in d.tasks { NewPlanKeeps(d, Plan(0, t, PDraft, None, map[])); }
    }
  }

  lemma NewGoalKeeps(d: Db, g: Goal)
    requires Inv(d)
    ensures Keeps(d, d.(next := d.next + 1, goals := d.goals[Id(GoalK, d.next) := g]))
  {
    hide Inv, Keeps;
    MintedKeys(d);
    MintIds(d, d, d.next + 1);
    PutGoal(d, d.(next := d.next + 1), Id(GoalK, d.next), g);
  }

  lemma NewTaskKeeps(d: Db, t: Task)
    requires Inv(d) && t.goalId in d.goals && t.activePlan.None?
    ensures Keeps(d, d.(next := d.next + 1, tasks := d.tasks[Id(TaskK, d.next) := t]))
  {
    hide Inv, Keeps;
    MintedKeys(d);
    MintIds(d, d, d.next + 1);
    PutTask(d, d.(next := d.next + 1), Id(TaskK, d.next), t);
  }

  lemma NewPlanKeeps(d: Db, p: Plan)
    requires Inv(d) && p.taskId in d.tasks && p.graph == map[]
    ensures Keeps(d, d.(next := d.next + 1, plans := d.plans[Id(PlanK, d.next) := p]))
  {
    hide Inv, Keeps, Acyclic;
    MintedKeys(d);
    MintIds(d, d, d.next + 1);
    EmptyGraphAcyclic();
    PutPlan(d, d.(next := d.next + 1), Id(PlanK, d.next), p);
  }

  lemma NewStepKeeps(d: Db, s: Step)
    requires Inv(d) && s.planId in d.plans
    ensures Keeps(d, d.(next := d.next + 1, steps := d.steps[Id(StepK, d.next) := s]))
  {
    hide Inv, Keeps;
    MintedKeys(d);
    MintIds(d, d, d.next + 1);
    PutStep(d, d.(next := d.next + 1), Id(StepK, d.next), s);
  }

  lemma CreateStepKeeps(d: Db, plan: Id, required: bool, dependsOn: set<Id>, capability: string)
    requires Inv(d)
    ensures Keeps(d, CreateStepTx(d, plan, required, dependsOn, capability).db)
  {
    hide Inv, Evolves, Acyclic, AllMinted;
    MintedKeys(d);
    if CreateStepTx(d, plan, required, dependsOn, capability).res.Ok? {
      var id := Id(StepK, d.next);
      var s := Step(0, plan, SPending, required, dependsOn, capability);
      var p := d.plans[plan].(graph := d.plans[plan].graph[id := dependsOn], revision := d.plans[plan].revision + 1);
      var d1 := d.(next := d.next + 1, steps := d.steps[id := s]);
      NewStepKeeps(d, s);
      PlanReplaced(d1, plan, p);
      KeepsTransitive(d, d1, d1.(plans := d1.plans[plan := p]));
    }
  }

  lemma AddDependencyKeeps(d: Db, plan: Id, step: Id, on: Id, expected: nat)
    requires Inv(d)
    ensures Keeps(d, AddDependencyTx(d, plan, step, on, expected).db)
  {
    hide Inv, Evolves, Acyclic, AllMinted;
    MintedKeys(d);
    if AddDependencyTx(d, plan, step, on, expected).res.Ok? {
      var p, s := d.plans[plan], d.steps[step];
      var d1 := d.(plans := d.plans[plan := p.(graph := p.graph[step := Succ(p.graph, step) + {on}], revision := p.revision + 1)]);
      PlanReplaced(d, plan, d1.plans[plan]);
      var s' := s.(dependsOn := s.dependsOn + {on});
      StepReplaced(d1, step, s');
      KeepsTransitive(d, d1, d1.(steps := d1.steps[step := s']));
    }
  }

  // ------------------------------------------------------------------------ plan acceptance

  lemma FreshClaimKeeps(z: Db, d: Db)
    requires Keeps(z, d)
    ensures Keeps(z, d.(next := d.next + 2, claims := d.claims[ClaimKey(Id(ClaimK, d.next), 1) := Claim([], Unverified)]))
  {
    hide Keeps;
    KeptKeys(z, d);
    MintIds(z, d, d.next + 2);
    PutClaim(z, d.(next := d.next + 2), ClaimKey(Id(ClaimK, d.next), 1), Claim([], Unverified));
  }

  lemma UnusedVerification(z: Db, d: Db)
    requires Keeps(z, d)
    ensures Id(VerificationK, d.next + 1) !in d.verifications
  {
    KeptKeys(z, d);
  }

  lemma AcceptRequirementKeeps(z: Db, d: Db, task: Id, step: Id, methodName: string)
    requires Keeps(z, d) && step in d.steps
    ensures Keeps(z, AcceptRequirement(d, task, step, methodName))
  {
    hide Keeps, AllMinted;
    UnusedVerification(z, d);
    var claim, ver := Id(ClaimK, d.next), Id(VerificationK, d.next + 1);
    var v := Verification(claim, methodName, "deterministic", VPending, Some(step), false);
    FreshClaimKeeps(z, d);
    var d2 := d.(next := d.next + 2, claims := d.claims[ClaimKey(claim, 1) := Claim([], Unverified)]);
    PutVerification(z, d2, ver, v);
    PutRequired(z, d2.(verifications := d2.verifications[ver := v]), task, ver);
  }

  lemma {:induction false} AcceptRequirementsKeeps(z: Db, d: Db, task: Id, step: Id, reqs: seq<Requirement>, k: nat)
    requires Keeps(z, d) && step in d.steps && k <= |reqs|
    ensures Keeps(z, AcceptRequirements(d, task, step, reqs, k))
    ensures AcceptRequirements(d, task, step, reqs, k).steps == d.steps
    ensures AcceptRequirements(d, task, step, reqs, k).plans == d.plans
    ensures AcceptRequirements(d, task, step, reqs, k).next >= d.next
  {
    hide Keeps;
    if k > 0 {
      AcceptRequirementsKeeps(z, d, task, step, reqs, k - 1);
      AcceptRequirementKeeps(z, AcceptRequirements(d, task, step, reqs, k - 1), task, step, reqs[k - 1].methodName);
    }
  }

  /** The step ids base .. base + n - 1 are reserved: minted but unused from position k on. */
  predicate Reserved(d: Db, base: nat, n: nat, k: nat) {
    base + n <= d.next && forall i: nat :: k <= i < n ==> StepId(base, i) !in d.steps
  }

  lemma {:induction false} AcceptStepsKeeps(z: Db, d: Db, task: Id, plan: Id, base: nat, graph: Graph,
                                            specs: seq<StepSpec>, k: nat)
    requires Keeps(z, d) && plan in d.plans && k <= |specs| && Reserved(d, base, |specs|, 0)
    ensures Keeps(z, AcceptSteps(d, task, plan, base, graph, specs, k))
    ensures AcceptSteps(d, task, plan, base, graph, specs, k).plans == d.plans
    ensures Reserved(AcceptSteps(d, task, plan, base, graph, specs, k), base, |specs|, k)
  {
    hide Keeps, AcceptRequirements;
    if k > 0 {
      AcceptStepsKeeps(z, d, task, plan, base, graph, specs, k - 1);
      var before := AcceptSteps(d, task, plan, base, graph, specs, k - 1);
      var id := StepId(base, k - 1);
      var s := NewStep(plan, graph, id, specs[k - 1]);
      PutStep(z, before, id, s);
      var withStep := before.(steps := before.steps[id := s]);
      var reqs := specs[k - 1].requirements;
      AcceptRequirementsKeeps(z, withStep, task, id, reqs, |reqs|);
    }
  }

  lemma WithPlanKeeps(d: Db, task: Id, specs: seq<StepSpec>)
    requires Inv(d) && task in d.tasks && Acyclic(ProposalGraph(d.next + 1, specs))
    ensures Keeps(d, WithPlan(d, task, specs)) && Reserved(WithPlan(d, task, specs), d.next + 1, |specs|, 0)
  {
    hide Inv, Keeps, Acyclic, ProposalGraph, TasksOk, PlansOk, StepsOk;
    WorkFacts(d);
    var d1 := d.(next := d.next + 1 + |specs|);
    MintIds(d, d, d1.next);
    PutPlan(d, d1, Id(PlanK, d.next), Plan(0, task, PDraft, None, ProposalGraph(d.next + 1, specs)));
  }

  lemma CreatePlanWithStepsKeeps(d: Db, reg: Registry, task: Id, specs: seq<StepSpec>, expected: nat)
    requires Inv(d)
    ensures Keeps(d, CreatePlanWithStepsTx(d, reg, task, specs, expected).db)
  {
    hide Inv, Keeps, Acyclic, AllMinted, AcceptSteps, ProposalGraph, ProposalFault, Reserved;
    MintedKeys(d);
    if CreatePlanWithStepsTx(d, reg, task, specs, expected).res.Ok? {
      WithPlanKeeps(d, task, specs);
      AcceptStepsKeeps(d, WithPlan(d, task, specs), task, Id(PlanK, d.next), d.next + 1, ProposalGraph(d.next + 1, specs),
                       specs, |specs|);
    }
  }

  // ------------------------------------------------------------------------------ activation

  lemma ActivateKeeps(d: Db, task: Id, plan: Id, expected: nat)
    requires Inv(d)
    ensures Keeps(d, ActivatePlanTx(d, task, plan, expected).db)
  {
    hide Inv, Keeps, AllMinted;
    MintedKeys(d);
    if ActivatePlanTx(d, task, plan, expected).res.Ok? {
      TaskReplaced(d, task, d.tasks[task].(activePlan := Some(plan), revision := d.tasks[task].revision + 1));
    }
  }

  lemma SupersedeKeeps(d: Db, task: Id, oldPlan: Id, newPlan: Id, expected: nat)
    requires Inv(d)
    ensures Keeps(d, SupersedePlanTx(d, task, oldPlan, newPlan, expected).db)
  {
    hide Inv, Evolves, Acyclic, AllMinted;
    MintedKeys(d);
    if SupersedePlanTx(d, task, oldPlan, newPlan, expected).res.Ok? {
      var p := d.plans[oldPlan];
      var d1 := d.(plans := d.plans[oldPlan := p.(status := PSuperseded, supersededBy := Some(newPlan), revision := p.revision + 1)]);
      PlanReplaced(d, oldPlan, d1.plans[oldPlan]);
      var t := d.tasks[task].(activePlan := Some(newPlan), revision := d.tasks[task].revision + 1);
      TaskReplaced(d1, task, t);
      KeepsTransitive(d, d1, d1.(tasks := d1.tasks[task := t]));
    }
  }

  // ------------------------------------------------------------------------------ transitions

  lemma MovedRows(d: Db, s: set<Id>, tasks: map<Id, Task>)
    requires ObligationsOk(d.obligations, tasks)
    ensures ObligationsOk(MovedToUor(d, s).obligations, tasks)
    ensures ObligationsEvolve(d.obligations, MovedToUor(d, s).obligations)
  {
  }

  lemma MoveSubtreeKeeps(z: Db, d: Db, obj: Id)
    requires Keeps(z, d)
    ensures Keeps(z, MoveSubtree(d, obj))
  {
    hide ObligationsOk, ObligationsEvolve, Subtree;
    assert Holds(ObligationsSound, d) && Holds(IdsMinted, d);
    MovedRows(d, Subtree(d, obj), d.tasks);
    PutObligations(z, d, MoveSubtree(d, obj).obligations);
  }

  /** A goal or task written and its obligations handed over, in one commit. */
  lemma GoalEndKeeps(d: Db, id: Id, s: GoalStatus)
    requires Inv(d) && id in d.goals
    ensures var d1 := d.(goals := d.goals[id := d.goals[id].(status := s, revision := d.goals[id].revision + 1)]);
            Keeps(d, d1) && Keeps(d, MoveSubtree(d1, id))
  {
    hide Inv, Keeps, MoveSubtree;
    GoalReplaced(d, id, d.goals[id].(status := s, revision := d.goals[id].revision + 1));
    MoveSubtreeKeeps(d, d.(goals := d.goals[id := d.goals[id].(status := s, revision := d.goals[id].revision + 1)]), id);
  }

  lemma TaskEndKeeps(d: Db, id: Id, s: TaskStatus, p: Option<Id>)
    requires Inv(d) && id in d.tasks && (p == None || p == d.tasks[id].activePlan)
    ensures var d1 := d.(tasks := d.tasks[id := d.tasks[id].(status := s, activePlan := p, revision := d.tasks[id].revision + 1)]);
            Keeps(d, d1) && Keeps(d, MoveSubtree(d1, id))
  {
    hide Inv, Keeps, MoveSubtree;
    var t := d.tasks[id].(status := s, activePlan := p, revision := d.tasks[id].revision + 1);
    TaskReplaced(d, id, t);
    MoveSubtreeKeeps(d, d.(tasks := d.tasks[id := t]), id);
  }

  lemma CompleteKeeps(d: Db, obj: Id, expected: nat, criterion: bool)
    requires Inv(d)
    ensures Keeps(d, CompleteTx(d, obj, expected, criterion).db)
  {
    hide Inv, Keeps, AllMinted, MoveSubtree, EvaluateCompletion, AllRequiredPass, GoalChildren, TaskChildren;
    MintedKeys(d);
    if CompleteTx(d, obj, expected, criterion).res.Ok? {
      if obj in d.goals { GoalEndKeeps(d, obj, GCompleted); } else { TaskEndKeeps(d, obj, TCompleted, None); }
    }
  }

  lemma TerminateKeeps(d: Db, obj: Id, target: WorkStatus, expected: nat)
    requires Inv(d)
    ensures Keeps(d, TerminateTx(d, obj, target, expected).db)
  {
    hide Inv, Keeps, AllMinted, MoveSubtree, GoalNext, TaskNext;
    MintedKeys(d);
    if TerminateTx(d, obj, target, expected).res.Ok? {
      if obj in d.goals { GoalEndKeeps(d, obj, target.goal); } else { TaskEndKeeps(d, obj, target.task, None); }
    }
  }

  lemma TransitionKeeps(d: Db, obj: Id, target: WorkStatus, expected: nat)
    requires Inv(d)
    ensures Keeps(d, TransitionTx(d, obj, target, expected).db)
  {
    hide Inv, Keeps, AllMinted, GoalNext, TaskNext, PlanNext, StepNext;
    MintedKeys(d);
    if TransitionTx(d, obj, target, expected).res.Ok? {
      match Load(d, obj)
      case AGoal(g) => GoalReplaced(d, obj, g.(status := target.goal, revision := g.revision + 1));
      case ATask(t) => TaskReplaced(d, obj, t.(status := target.task, revision := t.revision + 1));
      case APlan(p) => PlanReplaced(d, obj, p.(status := target.plan, revision := p.revision + 1));
      case AStep(s) => StepReplaced(d, obj, s.(status := target.step, revision := s.revision + 1));
      case _ =>
    }
  }

  lemma FreezeKeeps(d: Db, obj: Id)
    requires Inv(d)
    ensures Keeps(d, FreezeObjectTx(d, obj).db)
  {
    hide Inv, Keeps, AllMinted;
    MintedKeys(d);
    match Load(d, obj)
    case AGoal(g) => GoalReplaced(d, obj, g.(integrity := Frozen, revision := g.revision + 1));
    case ATask(t) => TaskReplaced(d, obj, t.(integrity := Frozen, revision := t.revision + 1));
    case _ =>
  }

  lemma CompleteStepKeeps(d: Db, step: Id, expected: nat)
    requires Inv(d)
    ensures Keeps(d, CompleteStepTx(d, step, expected).db)
  {
    hide Inv, Keeps, AllMinted;
    MintedKeys(d);
    if step in d.steps {
      StepReplaced(d, step, d.steps[step].(status := SCompleted, revision := d.steps[step].revision + 1));
    }
  }

  lemma BindKeeps(d: Db, obj: Id, ver: Id)
    requires Inv(d)
    ensures Keeps(d, BindTx(d, obj, ver).db)
  {
    hide Inv, Keeps;
    MintedKeys(d);
    if ver in d.verifications { PutRequired(d, d, obj, ver); }
  }

  lemma WorkKeeps(d: Db, c: WorkCall)
    requires Inv(d)
    ensures Keeps(d, Work.Apply(d, c).db)
  {
    hide Inv, Keeps, CreateStepTx, AddDependencyTx, CreatePlanWithStepsTx, ActivatePlanTx, SupersedePlanTx, CompleteTx,
         TerminateTx, TransitionTx, FreezeObjectTx, BindTx, CompleteStepTx, AllMinted;
    MintedKeys(d);
    match c
    case CreateStep(p, r, deps, cap) => CreateStepKeeps(d, p, r, deps, cap);
    case AddDependency(p, s, on, e) => AddDependencyKeeps(d, p, s, on, e);
    case CreatePlanWithSteps(reg, t, specs, e) => CreatePlanWithStepsKeeps(d, reg, t, specs, e);
    case ActivatePlan(t, p, e) => ActivateKeeps(d, t, p, e);
    case SupersedePlan(t, p, q, e) => SupersedeKeeps(d, t, p, q, e);
    case Complete(o, e, crit) => CompleteKeeps(d, o, e, crit);
    case CancelTask(o, e) => TerminateKeeps(d, o, OfTask(TCancelled), e);
    case CancelGoal(o, e) => TerminateKeeps(d, o, OfGoal(GCancelled), e);
    case Archive(o, e) =>
      TerminateKeeps(d, o, OfGoal(GArchived), e);
      TerminateKeeps(d, o, OfTask(TArchived), e);
    case Transition(o, s, e) => TransitionKeeps(d, o, s, e);
    case Bind(o, v) => BindKeeps(d, o, v);
    case CompleteStep(s, e) => CompleteStepKeeps(d, s, e);
    case FreezeObject(o) => FreezeKeeps(d, o);
    case _ => CreateKeeps(d, c);
  }
}
