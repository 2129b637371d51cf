/** Goal, task, plan and step lifecycle (v5/work.py). Each function is the committed effect
    of one transaction together with its answer. */
module Work {
  import opened Types
  import opened Graphs
  import opened Obligations

  datatype Requirement = Requirement(methodName: string, appliesTo: string)

  datatype StepSpec = StepSpec(capability: string, required: bool, dependsOn: seq<int>,
                               requirements: seq<Requirement>)

  /** The names the capability and verification registries know. */
  datatype Registry = Registry(capabilities: set<string>, methodNames: set<string>)

  datatype WorkCall =
    | CreateGoal(policy: Policy)
    | CreateTask(goal: Id, policy: Policy, maxAttempts: int, attemptsUsed: int, expectedGoal: Option<nat>)
    | CreatePlan(task: Id)
    | CreateStep(plan: Id, required: bool, dependsOn: set<Id>, capability: string)
    | AddDependency(plan: Id, step: Id, on: Id, expected: nat)
    | CreatePlanWithSteps(registry: Registry, task: Id, specs: seq<StepSpec>, expected: nat)
    | ActivatePlan(task: Id, plan: Id, expected: nat)
    | SupersedePlan(task: Id, oldPlan: Id, newPlan: Id, expected: nat)
    | Bind(obj: Id, verification: Id)
    | Complete(obj: Id, expected: nat, criterion: bool)
    | CancelTask(task: Id, expected: nat)
    | CancelGoal(goal: Id, expected: nat)
    | Archive(obj: Id, expected: nat)
    | Transition(obj: Id, target: WorkStatus, expected: nat)
    | CompleteStep(step: Id, expected: nat)
    | FreezeObject(obj: Id)

  // ------------------------------------------------------------------- creation

  function CreateGoalTx(d: Db, policy: Policy): (r: Tx)
    ensures r.db == d.(next := r.db.next, goals := r.db.goals)
  {
    var id := Id(GoalK, d.next);
    Made(d.(next := d.next + 1, goals := d.goals[id := Goal(0, GActive, policy, Sound)]), id)
  }

  function CreateTaskTx(d: Db, goal: Id, policy: Policy, maxAttempts: int, used: int, expected: Option<nat>): (r: Tx)
    ensures r.db == d.(next := r.db.next, tasks := r.db.tasks)
  {
    if goal !in d.goals then Reject(d, NotFound)
    else if expected.Some? && d.goals[goal].revision != expected.value then Reject(d, StaleRevision)
    else if GoalTerminal(d.goals[goal].status) then Reject(d, AlreadyTerminal)
    else
      var id := Id(TaskK, d.next);
      var row := Task(0, goal, TPending, None, policy, maxAttempts, used, Sound);
      Made(d.(next := d.next + 1, tasks := d.tasks[id := row]), id)
  }

  function CreatePlanTx(d: Db, task: Id): (r: Tx)
    ensures r.db == d.(next := r.db.next, plans := r.db.plans)
  {
    if task !in d.tasks then Reject(d, NotFound)
    else if TaskTerminal(d.tasks[task].status) then Reject(d, AlreadyTerminal)
    else
      var id := Id(PlanK, d.next);
      Made(d.(next := d.next + 1, plans := d.plans[id := Plan(0, task, PDraft, None, map[])]), id)
  }

  ghost function CreateStepTx(d: Db, plan: Id, required: bool, dependsOn: set<Id>, capability: string): (r: Tx)
    ensures r.db == d.(next := r.db.next, steps := r.db.steps, plans := r.db.plans)
  {
    if plan !in d.plans then Reject(d, NotFound)
    else if PlanTerminal(d.plans[plan].status) then Reject(d, AlreadyTerminal)
    else
      var p := d.plans[plan];
      var id := Id(StepK, d.next);
      var graph := p.graph[id := dependsOn];
      if !Acyclic(graph) then Reject(d, DependencyCycle)
      else Made(d.(next := d.next + 1,
                   steps := d.steps[id := Step(0, plan, SPending, required, dependsOn, capability)],
                   plans := d.plans[plan := p.(graph := graph, revision := p.revision + 1)]), id)
  }

  predicate StepOf(d: Db, step: Id, plan: Id) { step in d.steps && d.steps[step].planId == plan }

  ghost function AddDependencyTx(d: Db, plan: Id, step: Id, on: Id, expected: nat): (r: Tx)
    ensures r.db == d.(steps := r.db.steps, plans := r.db.plans)
  {
    if plan !in d.plans then Reject(d, NotFound)
    else if d.plans[plan].revision != expected then Reject(d, StaleRevision)
    else if step == on then Reject(d, DependencyCycle)
    else if !StepOf(d, step, plan) || !StepOf(d, on, plan) then Reject(d, NotFound)
    else
      var p := d.plans[plan];
      var graph := p.graph[step := Succ(p.graph, step) + {on}];
      if !Acyclic(graph) then Reject(d, DependencyCycle)
      else
        var s := d.steps[step];
        Done(d.(plans := d.plans[plan := p.(graph := graph, revision := p.revision + 1)],
                steps := d.steps[step := s.(dependsOn := s.dependsOn + {on})]))
  }

  // ---------------------------------------------------- atomic plan acceptance

  /** The dependency indices are in range and unrepeated, up to position k. */
  predicate IndicesOk(deps: seq<int>, n: nat, k: nat)
    requires k <= |deps|
  {
    forall i :: 0 <= i < k ==> 0 <= deps[i] < n && forall j :: 0 <= j < i ==> deps[j] != deps[i]
  }

  /** The first fault of a requirement list, from position k on. */
  function RequirementFault(reg: Registry, cap: string, reqs: seq<Requirement>, k: nat): Option<Reason>
    requires k <= |reqs|
    decreases |reqs| - k
  {
    if k == |reqs| then None
    else if reqs[k].methodName == "" then Some(MalformedProposal)
    else if reqs[k].methodName !in reg.methodNames then Some(UnknownMethod)
    else if reqs[k].appliesTo != cap then Some(CapabilityMismatch)
    else RequirementFault(reg, cap, reqs, k + 1)
  }

  function SpecFault(reg: Registry, s: StepSpec, n: nat): Option<Reason> {
    if s.capability == "" || s.capability !in reg.capabilities then Some(MalformedProposal)
    else if !IndicesOk(s.dependsOn, n, |s.dependsOn|) then Some(MalformedProposal)
    else RequirementFault(reg, s.capability, s.requirements, 0)
  }

  /** The first fault of a proposal, from step k on. */
  function ProposalFault(reg: Registry, specs: seq<StepSpec>, k: nat): Option<Reason>
    requires k <= |specs|
    decreases |specs| - k
  {
    if k == |specs| then None
    else
      var f := SpecFault(reg, specs[k], |specs|);
      if f.Some? then f else ProposalFault(reg, specs, k + 1)
  }

  /** Step ids are minted right after the plan id. */
  function StepId(base: nat, i: nat): Id { Id(StepK, base + i) }

  function DependencyIds(base: nat, deps: seq<int>): set<Id> {
    set i | 0 <= i < |deps| && deps[i] >= 0 :: StepId(base, deps[i])
  }

  function StepIds(base: nat, n: nat): set<Id> { set i: nat | i < n :: StepId(base, i) }

  function ProposalGraph(base: nat, specs: seq<StepSpec>): Graph {
    map s | s in StepIds(base, |specs|) :: DependencyIds(base, specs[s.n - base].dependsOn)
  }

  /** One requirement: a claim without evidence, a PENDING verification bound to the step,
      and the binding to the task. */
  function AcceptRequirement(d: Db, task: Id, step: Id, methodName: string): Db {
    var claim := Id(ClaimK, d.next);
    var ver := Id(VerificationK, d.next + 1);
    d.(next := d.next + 2,
       claims := d.claims[ClaimKey(claim, 1) := Claim([], Unverified)],
       verifications := d.verifications[ver := Verification(claim, methodName, "deterministic", VPending, Some(step), false)],
       required := d.required + {(task, ver)})
  }

  function AcceptRequirements(d: Db, task: Id, step: Id, reqs: seq<Requirement>, k: nat): (r: Db)
    requires k <= |reqs|
    ensures r == d.(next := r.next, claims := r.claims, verifications := r.verifications, required := r.required)
  {
    if k == 0 then d
    else AcceptRequirement(AcceptRequirements(d, task, step, reqs, k - 1), task, step, reqs[k - 1].methodName)
  }

  function NewStep(plan: Id, graph: Graph, id: Id, s: StepSpec): Step {
    Step(0, plan, SPending, s.required, if id in graph then graph[id] else {}, s.capability)
  }

  /** The first k steps with all their requirements. */
  function AcceptSteps(d: Db, task: Id, plan: Id, base: nat, graph: Graph, specs: seq<StepSpec>, k: nat): (r: Db)
    requires k <= |specs|
    ensures r == d.(next := r.next, steps := r.steps, claims := r.claims, verifications := r.verifications,
                    required := r.required)
  {
    if k == 0 then d
    else
      var before := AcceptSteps(d, task, plan, base, graph, specs, k - 1);
      var id := StepId(base, k - 1);
      var withStep := before.(steps := before.steps[id := NewStep(plan, graph, id, specs[k - 1])]);
      AcceptRequirements(withStep, task, id, specs[k - 1].requirements, |specs[k - 1].requirements|)
  }

  /** The store once the plan row is in and all step ids are reserved. */
  function WithPlan(d: Db, task: Id, specs: seq<StepSpec>): Db {
    d.(next := d.next + 1 + |specs|,
       plans := d.plans[Id(PlanK, d.next) := Plan(0, task, PDraft, None, ProposalGraph(d.next + 1, specs))])
  }

  function AcceptedPlan(d: Db, task: Id, specs: seq<StepSpec>): Db {
    AcceptSteps(WithPlan(d, task, specs), task, Id(PlanK, d.next), d.next + 1,
                ProposalGraph(d.next + 1, specs), specs, |specs|)
  }

  ghost function CreatePlanWithStepsTx(d: Db, reg: Registry, task: Id, specs: seq<StepSpec>, expected: nat): (r: Tx)
    ensures r.res.Ok? || r.db == d
    ensures r.db == d.(next := r.db.next, plans := r.db.plans, steps := r.db.steps, claims := r.db.claims,
                       verifications := r.db.verifications, required := r.db.required)
  {
    if task !in d.tasks then Reject(d, NotFound)
    else if d.tasks[task].revision != expected then Reject(d, StaleRevision)
    else if TaskTerminal(d.tasks[task].status) then Reject(d, AlreadyTerminal)
    else if specs == [] then Reject(d, MalformedProposal)
    else
      var fault := ProposalFault(reg, specs, 0);
      if fault.Some? then Reject(d, fault.value)
      else if !Acyclic(ProposalGraph(d.next + 1, specs)) then Reject(d, DependencyCycle)
      else Made(AcceptedPlan(d, task, specs), Id(PlanK, d.next))
  }

  // ------------------------------------------------------------ plan activation

  function ActivatePlanTx(d: Db, task: Id, plan: Id, expected: nat): (r: Tx)
    ensures r.db == d.(tasks := r.db.tasks)
  {
    if task !in d.tasks then Reject(d, NotFound)
    else
      var t := d.tasks[task];
      if t.revision != expected then Reject(d, StaleRevision)
      else if t.status !in {TActive, TBlocked} then Reject(d, InvalidTransition)
      else if t.activePlan.Some?
              && (t.activePlan.value !in d.plans || !Displaceable(d.plans[t.activePlan.value].status))
      then Reject(d, PlanExclusivity)
      else if plan !in d.plans then Reject(d, NotFound)
      else if d.plans[plan].taskId != task then Reject(d, PlanMismatch)
      else if d.plans[plan].status != PDraft then Reject(d, PlanNotDraft)
      else Done(d.(tasks := d.tasks[task := t.(activePlan := Some(plan), revision := t.revision + 1)]))
  }

  function SupersedePlanTx(d: Db, task: Id, oldPlan: Id, newPlan: Id, expected: nat): (r: Tx)
    ensures r.db == d.(plans := r.db.plans, tasks := r.db.tasks)
  {
    if task !in d.tasks then Reject(d, NotFound)
    else
      var t := d.tasks[task];
      if t.revision != expected then Reject(d, StaleRevision)
      else if t.status !in {TActive, TBlocked} then Reject(d, InvalidTransition)
      else if t.activePlan != Some(oldPlan) then Reject(d, PlanExclusivity)
      else if oldPlan !in d.plans || d.plans[oldPlan].taskId != task then Reject(d, PlanMismatch)
      else if newPlan !in d.plans || d.plans[newPlan].taskId != task then Reject(d, PlanMismatch)
      else if d.plans[newPlan].status != PDraft then Reject(d, PlanNotDraft)
      else
        var p := d.plans[oldPlan];
        Done(d.(plans := d.plans[oldPlan := p.(status := PSuperseded, supersededBy := Some(newPlan), revision := p.revision + 1)],
                tasks := d.tasks[task := t.(activePlan := Some(newPlan), revision := t.revision + 1)]))
  }

  // ----------------------------------------------------------------- completion

  function BindTx(d: Db, obj: Id, ver: Id): (r: Tx)
    ensures r.db == d.(required := r.db.required)
  {
    match Load(d, obj)
    case NoObject => Reject(d, NotFound)
    case APlan(_) => Reject(d, InvalidTransition)
    case AStep(_) => Reject(d, InvalidTransition)
    case AnAction(_) => Reject(d, InvalidTransition)
    case _ =>
      if ver !in d.verifications then Reject(d, NotFound)
      else Done(d.(required := d.required + {(obj, ver)}))
  }

  /** evaluate_completion over the number of children and of satisfying children.
      `criterion` is the verdict of the named evaluator, false when none is registered. */
  function EvaluateCompletion(p: Policy, children: nat, satisfying: nat, criterion: bool): bool {
    match p
    case AllRequired => children > 0 && satisfying == children
    case AnyRequired => satisfying > 0
    case NOfM(n) => satisfying >= n
    case Criterion => criterion
    case UnknownRule => false
  }

  // _children_status_locked: steps of the active plan, or the goal's tasks.
  function PlanSteps(d: Db, plan: Id): set<Id> {
    set s | s in d.steps && d.steps[s].planId == plan && d.steps[s].status != SCancelled
  }

  function TaskChildren(d: Db, t: Task): set<Id> {
    if t.activePlan.Some? then PlanSteps(d, t.activePlan.value) else {}
  }

  function GoalChildren(d: Db, goal: Id): set<Id> {
    set t | t in d.tasks && d.tasks[t].goalId == goal && d.tasks[t].status !in {TCancelled, TArchived}
  }

  function StepsDone(d: Db, s: set<Id>): set<Id> {
    set i | i in s && i in d.steps && d.steps[i].status in {SCompleted, SSkipped}
  }

  function TasksDone(d: Db, s: set<Id>): set<Id> {
    set i | i in s && i in d.tasks && d.tasks[i].status == TCompleted
  }

  predicate AllRequiredPass(d: Db, obj: Id) {
    forall b :: b in d.required && b.0 == obj ==> b.1 in d.verifications && d.verifications[b.1].result == VPass
  }

  /** Terminal write plus obligation hand-over, in one commit. */
  function TerminalCommit(d: Db, obj: Id): (r: Tx)
    ensures r.res.Ok? && r.db == d.(obligations := r.db.obligations)
  {
    Tx(MoveSubtree(d, obj), Ok(None, |Subtree(d, obj)|))
  }

  function CompleteTx(d: Db, obj: Id, expected: nat, criterion: bool): (r: Tx)
    ensures r.db == d.(goals := r.db.goals, tasks := r.db.tasks, obligations := r.db.obligations)
    ensures r.res.Ok? || r.db == d
  {
    match Load(d, obj)
    case NoObject => Reject(d, NotFound)
    case AGoal(g) =>
      var kids := GoalChildren(d, obj);
      if g.revision != expected then Reject(d, StaleRevision)
      else if g.integrity != Sound then Reject(d, FrozenObject)
      else if GoalTerminal(g.status) then Reject(d, InvalidTransition)
      else if !EvaluateCompletion(g.policy, |kids|, |TasksDone(d, kids)|, criterion) then Reject(d, PolicyUnsatisfied)
      else if !AllRequiredPass(d, obj) then Reject(d, VerificationNotPass)
      else TerminalCommit(d.(goals := d.goals[obj := g.(status := GCompleted, revision := g.revision + 1)]), obj)
    case ATask(t) =>
      var kids := TaskChildren(d, t);
      if t.revision != expected then Reject(d, StaleRevision)
      else if t.integrity != Sound then Reject(d, FrozenObject)
      else if TaskTerminal(t.status) then Reject(d, InvalidTransition)
      else if !EvaluateCompletion(t.policy, |kids|, |StepsDone(d, kids)|, criterion) then Reject(d, PolicyUnsatisfied)
      else if !AllRequiredPass(d, obj) then Reject(d, VerificationNotPass)
      else TerminalCommit(d.(tasks := d.tasks[obj := t.(status := TCompleted, activePlan := None, revision := t.revision + 1)]), obj)
    // plans and steps have no integrity, an action's is a bare string: the guard raises
    case APlan(p) => if p.revision != expected then Reject(d, StaleRevision) else Tx(d, Raised)
    case AStep(s) => if s.revision != expected then Reject(d, StaleRevision) else Tx(d, Raised)
    case AnAction(a) => if a.revision != expected then Reject(d, StaleRevision) else Tx(d, Raised)
  }

  /** _terminal_transition, as cancel_task, cancel_goal and archive_object call it. */
  function TerminateTx(d: Db, obj: Id, target: WorkStatus, expected: nat): (r: Tx)
    ensures r.db == d.(goals := r.db.goals, tasks := r.db.tasks, obligations := r.db.obligations)
    ensures r.res.Ok? || r.db == d
  {
    match Load(d, obj)
    case NoObject => Reject(d, NotFound)
    case AGoal(g) =>
      if g.revision != expected then Reject(d, StaleRevision)
      else if g.integrity != Sound then Reject(d, FrozenObject)
      else if !target.OfGoal? || target.goal !in GoalNext(g.status) then Reject(d, InvalidTransition)
      else TerminalCommit(d.(goals := d.goals[obj := g.(status := target.goal, revision := g.revision + 1)]), obj)
    case ATask(t) =>
      if t.revision != expected then Reject(d, StaleRevision)
      else if t.integrity != Sound then Reject(d, FrozenObject)
      else if !target.OfTask? || target.task !in TaskNext(t.status) then Reject(d, InvalidTransition)
      else TerminalCommit(d.(tasks := d.tasks[obj := t.(status := target.task, activePlan := None, revision := t.revision + 1)]), obj)
    case APlan(p) => if p.revision != expected then Reject(d, StaleRevision) else Tx(d, Raised)
    case AStep(s) => if s.revision != expected then Reject(d, StaleRevision) else Tx(d, Raised)
    case AnAction(a) => if a.revision != expected then Reject(d, StaleRevision) else Tx(d, Raised)
  }

  function ArchiveTx(d: Db, obj: Id, expected: nat): (r: Tx)
    ensures r.db == d.(goals := r.db.goals, tasks := r.db.tasks, obligations := r.db.obligations)
    ensures r.res.Ok? || r.db == d
  {
    match Load(d, obj)
    case NoObject => Reject(d, NotFound)
    case AGoal(_) => TerminateTx(d, obj, OfGoal(GArchived), expected)
    case ATask(_) => TerminateTx(d, obj, OfTask(TArchived), expected)
    case _ => Reject(d, InvalidTransition)
  }

  // ----------------------------------------------------------- other transitions

  function TransitionTx(d: Db, obj: Id, target: WorkStatus, expected: nat): (r: Tx)
    ensures r.db == d.(goals := r.db.goals, tasks := r.db.tasks, plans := r.db.plans, steps := r.db.steps)
    ensures r.res.Ok? || r.db == d
  {
    match Load(d, obj)
    case NoObject => Reject(d, NotFound)
    case AGoal(g) =>
      if g.revision != expected then Reject(d, StaleRevision)
      else if g.integrity != Sound then Reject(d, FrozenObject)
      else if !target.OfGoal? || target.goal !in GoalNext(g.status) then Reject(d, InvalidTransition)
      else Done(d.(goals := d.goals[obj := g.(status := target.goal, revision := g.revision + 1)]))
    case ATask(t) =>
      if t.revision != expected then Reject(d, StaleRevision)
      else if t.integrity != Sound then Reject(d, FrozenObject)
      else if !target.OfTask? || target.task !in TaskNext(t.status) then Reject(d, InvalidTransition)
      else Done(d.(tasks := d.tasks[obj := t.(status := target.task, revision := t.revision + 1)]))
    case APlan(p) =>
      if p.revision != expected then Reject(d, StaleRevision)
      else if !target.OfPlan? || target.plan !in PlanNext(p.status) then Reject(d, InvalidTransition)
      else Done(d.(plans := d.plans[obj := p.(status := target.plan, revision := p.revision + 1)]))
    case AStep(s) =>
      if s.revision != expected then Reject(d, StaleRevision)
      else if !target.OfStep? || target.step !in StepNext(s.status) then Reject(d, InvalidTransition)
      else Done(d.(steps := d.steps[obj := s.(status := target.step, revision := s.revision + 1)]))
    case AnAction(a) => if a.revision != expected then Reject(d, StaleRevision) else Reject(d, InvalidTransition)
  }

  function CompleteStepTx(d: Db, step: Id, expected: nat): (r: Tx)
    ensures r.db == d.(steps := r.db.steps)
  {
    if step !in d.steps then Reject(d, NotFound)
    else
      var s := d.steps[step];
      if s.revision != expected then Reject(d, StaleRevision)
      else if SCompleted !in StepNext(s.status) then Reject(d, InvalidTransition)
      else Done(d.(steps := d.steps[step := s.(status := SCompleted, revision := s.revision + 1)]))
  }

  function FreezeObjectTx(d: Db, obj: Id): (r: Tx)
    ensures r.db == d.(goals := r.db.goals, tasks := r.db.tasks)
  {
    match Load(d, obj)
    case NoObject => Reject(d, NotFound)
    case AGoal(g) =>
      if g.integrity == Frozen then Done(d)
      else Done(d.(goals := d.goals[obj := g.(integrity := Frozen, revision := g.revision + 1)]))
    case ATask(t) =>
      if t.integrity == Frozen then Done(d)
      else Done(d.(tasks := d.tasks[obj := t.(integrity := Frozen, revision := t.revision + 1)]))
    case _ => Reject(d, InvalidTransition)
  }

  ghost function Apply(d: Db, c: WorkCall): Tx {
    match c
    case CreateGoal(p) => CreateGoalTx(d, p)
    case CreateTask(g, p, m, u, e) => CreateTaskTx(d, g, p, m, u, e)
    case CreatePlan(t) => CreatePlanTx(d, t)
    case CreateStep(p, r, deps, cap) => CreateStepTx(d, p, r, deps, cap)
    case AddDependency(p, s, on, e) => AddDependencyTx(d, p, s, on, e)
    case CreatePlanWithSteps(reg, t, specs, e) => CreatePlanWithStepsTx(d, reg, t, specs, e)
    case ActivatePlan(t, p, e) => ActivatePlanTx(d, t, p, e)
    case SupersedePlan(t, p, q, e) => SupersedePlanTx(d, t, p, q, e)
    case Bind(o, v) => BindTx(d, o, v)
    case Complete(o, e, crit) => CompleteTx(d, o, e, crit)
    case CancelTask(o, e) => TerminateTx(d, o, OfTask(TCancelled), e)
    case CancelGoal(o, e) => TerminateTx(d, o, OfGoal(GCancelled), e)
    case Archive(o, e) => ArchiveTx(d, o, e)
    case Transition(o, s, e) => TransitionTx(d, o, s, e)
    case CompleteStep(s, e) => CompleteStepTx(d, s, e)
    case FreezeObject(o) => FreezeObjectTx(d, o)
  }
}
