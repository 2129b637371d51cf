/** Every operation but repair keeps the stronger facts. */
module StrictProofs {
  import opened Types
  import opened Graphs
  import opened Obligations
  import opened Safety
  import opened Execution
  import opened EvidencePipeline
  import opened Work
  import opened Invariants
  import opened RowWrites
  import opened WorkProofs
  import opened ExecutionProofs
  import opened StrictRows

  lemma Unmoved(d: Db)
    requires Strict(d)
    ensures Strictly(d, d)
  {
  }

  // ------------------------------------------------------------------------ obligations

  lemma EventStrict(d: Db, id: Id, e: Event)
    requires Inv(d) && Strict(d) && id in d.obligations && Evolves(d, Record(d, id, e))
    requires d.obligations[id].disposition == Open
    requires e.kind == EvResolved ==> EffectEstablished(d.claims, d.evidence, d.observations, d.obligations[id].origin)
    ensures Strictly(d, Record(d, id, e))
  {
    hide Inv, Evolves, Strictly, EffectEstablished, GraphMirrored, ObservationsExact, SupersessionOk;
    ObligationWrite(d, Record(d, id, e));
  }

  lemma NewObligationStrict(d: Db, o: Obligation)
    requires Inv(d) && Strict(d) && ValidOwner(d, o.owner) && o == NewObligation(o.origin, o.owner)
    ensures var d' := d.(next := d.next + 1, obligations := d.obligations[Id(ObligationK, d.next) := o]);
            Keeps(d, d') && Strictly(d, d')
  {
    hide Inv, Evolves, Strictly, EffectEstablished, GraphMirrored, ObservationsExact, SupersessionOk;
    MintedKeys(d);
    NewObligationKeeps(d, o);
    ObligationWrite(d, d.(next := d.next + 1, obligations := d.obligations[Id(ObligationK, d.next) := o]));
  }

  lemma ObligationCallStrict(d: Db, c: ObligationCall)
    requires Inv(d) && Strict(d)
    ensures Strictly(d, Obligations.Apply(d, c).db)
  {
    hide Inv, Evolves, Strict, Strictly, Record, Concerns, EffectEstablished;
    Unmoved(d);
    ObligationCallKeeps(d, c);
    if Obligations.Apply(d, c).res.Ok? {
      match c
      case CreateObligation(origin, owner) => NewObligationStrict(d, NewObligation(origin, owner));
      case Transfer(o, n, e) => EventStrict(d, o, Event(EvTransferred, e, Some(n)));
      case Abandon(o, _, _) => EventStrict(d, o, Event(EvAbandoned, d.obligations[o].owner, None));
      case Resolve(o, v, _) =>
        ConcernsEstablishes(d, d.verifications[v].verifies, d.obligations[o].origin);
        EventStrict(d, o, Event(EvResolved, d.obligations[o].owner, None));
    }
  }

  lemma ConcernsEstablishes(d: Db, claim: Id, action: Id)
    requires Concerns(d, claim, action)
    ensures EffectEstablished(d.claims, d.evidence, d.observations, action)
  {
    var v, e :| Newest(d.claims, claim, v) && e in d.claims[ClaimKey(claim, v)].basedOn
      && EvidenceOf(d.evidence, d.observations, e, action);
    assert ClaimKey(claim, v) in d.claims;
  }

  lemma MoveRowsStrict(d: Db, s: set<Id>)
    requires forall o :: o in s ==> o in d.obligations && d.obligations[o].disposition == Open
    ensures ObligationsForward(d.obligations, MovedToUor(d, s).obligations)
    ensures forall o :: o in d.obligations ==>
              && MovedToUor(d, s).obligations[o].disposition == d.obligations[o].disposition
              && MovedToUor(d, s).obligations[o].origin == d.obligations[o].origin
  {
  }

  lemma MoveSubtreeStrict(d: Db, obj: Id)
    requires Inv(d) && Strict(d)
    ensures Keeps(d, MoveSubtree(d, obj)) && Strictly(d, MoveSubtree(d, obj))
  {
    hide Inv, Evolves, Strictly, EffectEstablished, GraphMirrored, ObservationsExact, SupersessionOk,
         ObligationsForward;
    MintedKeys(d);
    MoveSubtreeKeeps(d, d, obj);
    MoveRowsStrict(d, Subtree(d, obj));
    ObligationWrite(d, MoveSubtree(d, obj));
  }

  // ---------------------------------------------------------------------------- plans and steps

  lemma LinksOfUnsuperseded(plans: map<Id, Plan>, id: Id, p: Plan)
    requires SupersessionOk(plans) && p.supersededBy.None?
    requires id in plans ==> plans[id].supersededBy.None?
    ensures SupersessionOk(plans[id := p])
  {
    SubgraphAcyclic(Links(plans), Links(plans[id := p]));
  }

  lemma SameLinks(plans: map<Id, Plan>, id: Id, p: Plan)
    requires SupersessionOk(plans) && id in plans && p.supersededBy == plans[id].supersededBy && p.status == plans[id].status
    ensures SupersessionOk(plans[id := p])
  {
    SubgraphAcyclic(Links(plans), Links(plans[id := p]));
  }

  lemma LinkAdded(plans: map<Id, Plan>, p: Id, q: Id, p': Plan)
    requires SupersessionOk(plans) && p in plans && q in plans && plans[q].status == PDraft
    requires p' == plans[p].(status := PSuperseded, supersededBy := Some(q), revision := plans[p].revision + 1)
    ensures SupersessionOk(plans[p := p'])
  {
    var g, h := Links(plans), Links(plans[p := p']);
    if p == q {
      SubgraphAcyclic(g, h);
    } else {
      SinkEdgeAcyclic(g, p, q);
      SubgraphAcyclic(g[p := {q}], h);
    }
  }

  /** Writing a step and its graph entry together keeps the two in step. */
  lemma MirrorEntry(plans: map<Id, Plan>, steps: map<Id, Step>, plan: Id, p: Plan, id: Id, s: Step)
    requires GraphMirrored(plans, steps) && plan in plans && s.planId == plan
    requires id in steps ==> steps[id].planId == plan
    requires p.graph == plans[plan].graph[id := s.dependsOn]
    ensures GraphMirrored(plans[plan := p], steps[id := s])
  {
  }

  lemma CreateStepStrict(d: Db, plan: Id, required: bool, dependsOn: set<Id>, capability: string)
    requires Inv(d) && Strict(d)
    ensures Strictly(d, CreateStepTx(d, plan, required, dependsOn, capability).db)
  {
    hide Inv, Evolves, Strictly, Acyclic, ResolutionsGrounded, ObservationsExact, GraphMirrored, SupersessionOk;
    CreateStepKeeps(d, plan, required, dependsOn, capability);
    MintedKeys(d);
    var r := CreateStepTx(d, plan, required, dependsOn, capability);
    Unmoved(d);
    if r.res.Ok? {
      SameLinks(d.plans, plan, r.db.plans[plan]);
      MirrorEntry(d.plans, d.steps, plan, r.db.plans[plan], Id(StepK, d.next), r.db.steps[Id(StepK, d.next)]);
      PlanWrite(d, r.db);
    }
  }

  lemma MirroredEntry(d: Db, step: Id)
    requires Strict(d) && step in d.steps
    ensures d.steps[step].planId in d.plans && Succ(d.plans[d.steps[step].planId].graph, step) == d.steps[step].dependsOn
  {
  }

  lemma DependencyAddedStrict(d: Db, plan: Id, step: Id, p: Plan, s: Step)
    requires Inv(d) && Strict(d) && plan in d.plans && step in d.steps && d.steps[step].planId == plan
    requires p == d.plans[plan].(graph := p.graph, revision := d.plans[plan].revision + 1)
    requires s == d.steps[step].(dependsOn := s.dependsOn) && p.graph == d.plans[plan].graph[step := s.dependsOn]
    requires Evolves(d, d.(plans := d.plans[plan := p], steps := d.steps[step := s]))
    ensures Strictly(d, d.(plans := d.plans[plan := p], steps := d.steps[step := s]))
  {
    hide Inv, Evolves, Strictly, Acyclic, ResolutionsGrounded, ObservationsExact, GraphMirrored, SupersessionOk;
    SameLinks(d.plans, plan, p);
    MirrorEntry(d.plans, d.steps, plan, p, step, s);
    PlanWrite(d, d.(plans := d.plans[plan := p], steps := d.steps[step := s]));
  }

  lemma AddDependencyStrict(d: Db, plan: Id, step: Id, on: Id, expected: nat)
    requires Inv(d) && Strict(d)
    ensures Strictly(d, AddDependencyTx(d, plan, step, on, expected).db)
  {
    hide Inv, Evolves, Strict, Strictly, Acyclic;
    AddDependencyKeeps(d, plan, step, on, expected);
    Unmoved(d);
    if AddDependencyTx(d, plan, step, on, expected).res.Ok? {
      MirroredEntry(d, step);
      var p, s := d.plans[plan], d.steps[step];
      DependencyAddedStrict(d, plan, step, p.(graph := p.graph[step := Succ(p.graph, step) + {on}], revision := p.revision + 1),
                            s.(dependsOn := s.dependsOn + {on}));
    }
  }

  // ------------------------------------------------------------------------ plan acceptance

  /** The tables plan acceptance leaves alone. */
  predicate SameCore(a: Db, b: Db) {
    && a.goals == b.goals && a.tasks == b.tasks && a.actions == b.actions && a.observations == b.observations
    && a.evidence == b.evidence && a.obligations == b.obligations && a.confirmations == b.confirmations
  }

  /** The rows of the first k steps of a proposal. */
  function StepRows(plan: Id, base: nat, graph: Graph, specs: seq<StepSpec>, k: nat): map<Id, Step>
    requires k <= |specs|
  {
    if k == 0 then map[]
    else StepRows(plan, base, graph, specs, k - 1)[StepId(base, k - 1) := NewStep(plan, graph, StepId(base, k - 1), specs[k - 1])]
  }

  /** One of the first k reserved step ids. */
  predicate ReservedId(s: Id, base: nat, k: nat) { s.kind == StepK && base <= s.n < base + k }

  lemma {:induction false} RowsAt(plan: Id, base: nat, graph: Graph, specs: seq<StepSpec>, k: nat)
    requires k <= |specs|
    ensures var rows := StepRows(plan, base, graph, specs, k);
            forall s :: (s in rows <==> ReservedId(s, base, k)) && (s in rows ==> rows[s] == NewStep(plan, graph, s, specs[s.n - base]))
  {
    hide NewStep;
    if k > 0 { RowsAt(plan, base, graph, specs, k - 1); }
  }

  lemma GraphKeys(base: nat, specs: seq<StepSpec>)
    ensures forall s :: s in ProposalGraph(base, specs) <==> ReservedId(s, base, |specs|)
  {
    forall s | ReservedId(s, base, |specs|) ensures s in StepIds(base, |specs|) {
      var i: nat := s.n - base;
      assert s == StepId(base, i);
    }
  }

  lemma {:induction false} RowKeys(plan: Id, base: nat, specs: seq<StepSpec>)
    ensures var graph := ProposalGraph(base, specs);
            var rows := StepRows(plan, base, graph, specs, |specs|);
            forall s :: (s in rows <==> s in graph) && (s in rows <==> ReservedId(s, base, |specs|))
                        && (s in rows ==> rows[s].planId == plan && rows[s].dependsOn == graph[s])
  {
    hide ProposalGraph, StepRows;
    RowsAt(plan, base, ProposalGraph(base, specs), specs, |specs|);
    GraphKeys(base, specs);
  }

  /** Overriding one table by another, one entry at a time. */
  lemma OverrideOneMore<K, V>(a: map<K, V>, b: map<K, V>, k: K, v: V)
    ensures (a + b)[k := v] == a + b[k := v]
  {
  }

  lemma {:induction false} StepsTouch(d: Db, task: Id, plan: Id, base: nat, graph: Graph, specs: seq<StepSpec>, k: nat)
    requires k <= |specs|
    ensures AcceptSteps(d, task, plan, base, graph, specs, k).steps == d.steps + StepRows(plan, base, graph, specs, k)
  {
    hide AcceptRequirements, NewStep;
    if k > 0 {
      StepsTouch(d, task, plan, base, graph, specs, k - 1);
      var id := StepId(base, k - 1);
      OverrideOneMore(d.steps, StepRows(plan, base, graph, specs, k - 1), id, NewStep(plan, graph, id, specs[k - 1]));
    } else {
      assert d.steps + map[] == d.steps;
    }
  }

  /** A new plan with its steps: rows and graph have the same new keys and agree on them. */
  lemma MirrorNewPlan(plans: map<Id, Plan>, steps: map<Id, Step>, id: Id, p: Plan, rows: map<Id, Step>)
    requires GraphMirrored(plans, steps) && id !in plans && rows.Keys == p.graph.Keys && rows.Keys !! steps.Keys
    requires forall s :: s in rows ==> rows[s].planId == id && rows[s].dependsOn == p.graph[s]
    ensures GraphMirrored(plans[id := p], steps + rows)
  {
  }

  lemma RowsAreUnused(d: Db, base: nat, rows: map<Id, Step>, n: nat)
    requires AllMinted(d) && d.next <= base && forall s :: s in rows ==> ReservedId(s, base, n)
    ensures rows.Keys !! d.steps.Keys && StepsForward(d.steps, d.steps + rows)
  {
  }

  lemma {:induction false} ProposalMirrored(d: Db, task: Id, specs: seq<StepSpec>)
    requires AllMinted(d) && GraphMirrored(d.plans, d.steps)
    ensures var w := WithPlan(d, task, specs);
            var rows := StepRows(Id(PlanK, d.next), d.next + 1, ProposalGraph(d.next + 1, specs), specs, |specs|);
            GraphMirrored(w.plans, d.steps + rows) && StepsForward(d.steps, d.steps + rows)
  {
    hide ProposalGraph, StepRows, GraphMirrored, StepsForward, ReservedId;
    var plan := Id(PlanK, d.next);
    var graph := ProposalGraph(d.next + 1, specs);
    var rows := StepRows(plan, d.next + 1, graph, specs, |specs|);
    RowKeys(plan, d.next + 1, specs);
    RowsAreUnused(d, d.next + 1, rows, |specs|);
    MirrorNewPlan(d.plans, d.steps, plan, Plan(0, task, PDraft, None, graph), rows);
  }

  lemma CreatePlanWithStepsStrict(d: Db, reg: Registry, task: Id, specs: seq<StepSpec>, expected: nat)
    requires Inv(d) && Strict(d)
    ensures Strictly(d, CreatePlanWithStepsTx(d, reg, task, specs, expected).db)
  {
    hide Inv, Evolves, Strictly, Acyclic, ResolutionsGrounded, ObservationsExact, GraphMirrored,
         SupersessionOk, AcceptSteps, StepRows, ProposalGraph, StepsForward;
    CreatePlanWithStepsKeeps(d, reg, task, specs, expected);
    MintedKeys(d);
    Unmoved(d);
    var r := CreatePlanWithStepsTx(d, reg, task, specs, expected);
    if r.res.Ok? {
      var graph := ProposalGraph(d.next + 1, specs);
      StepsTouch(WithPlan(d, task, specs), task, Id(PlanK, d.next), d.next + 1, graph, specs, |specs|);
      LinksOfUnsuperseded(d.plans, Id(PlanK, d.next), Plan(0, task, PDraft, None, graph));
      ProposalMirrored(d, task, specs);
      PlanWrite(d, r.db);
    }
  }

  // ------------------------------------------------------------------- goals, tasks, plans, steps

  lemma MirrorEmptyPlan(plans: map<Id, Plan>, steps: map<Id, Step>, id: Id, p: Plan)
    requires GraphMirrored(plans, steps) && id !in plans && p.graph == map[]
    ensures GraphMirrored(plans[id := p], steps)
  {
  }

  lemma NewPlanStrict(d: Db, id: Id, p: Plan)
    requires Inv(d) && Strict(d) && id !in d.plans && p.supersededBy.None? && p.graph == map[]
    requires Evolves(d, d.(next := d.next + 1, plans := d.plans[id := p]))
    ensures Strictly(d, d.(next := d.next + 1, plans := d.plans[id := p]))
  {
    hide Inv, Evolves, Strictly, Acyclic, ResolutionsGrounded, ObservationsExact, SupersessionOk, GraphMirrored;
    LinksOfUnsuperseded(d.plans, id, p);
    MirrorEmptyPlan(d.plans, d.steps, id, p);
    PlanWrite(d, d.(next := d.next + 1, plans := d.plans[id := p]));
  }

  lemma CreatePlanStrict(d: Db, task: Id)
    requires Inv(d) && Strict(d)
    ensures Strictly(d, CreatePlanTx(d, task).db)
  {
    hide Inv, Evolves, Strict, Strictly;
    CreateKeeps(d, CreatePlan(task));
    Unmoved(d);
    assert Id(PlanK, d.next) !in d.plans by { MintedKeys(d); }
    if CreatePlanTx(d, task).res.Ok? { NewPlanStrict(d, Id(PlanK, d.next), Plan(0, task, PDraft, None, map[])); }
  }

  lemma NewTaskStrict(d: Db, id: Id, t: Task)
    requires Inv(d) && Strict(d) && id !in d.tasks && t.activePlan.None?
    requires Evolves(d, d.(next := d.next + 1, tasks := d.tasks[id := t]))
    ensures Strictly(d, d.(next := d.next + 1, tasks := d.tasks[id := t]))
  {
    hide Inv, Evolves, Strict, Strictly;
    TaskWrite(d, d.(next := d.next + 1, tasks := d.tasks[id := t]));
  }

  lemma CreateTaskStrict(d: Db, c: WorkCall)
    requires Inv(d) && Strict(d) && c.CreateTask?
    ensures Strictly(d, Work.Apply(d, c).db)
  {
    hide Inv, Evolves, Strict, Strictly;
    CreateKeeps(d, c);
    assert Id(TaskK, d.next) !in d.tasks by { MintedKeys(d); }
    Unmoved(d);
    if Work.Apply(d, c).res.Ok? {
      NewTaskStrict(d, Id(TaskK, d.next), Task(0, c.goal, TPending, None, c.policy, c.maxAttempts, c.attemptsUsed, Sound));
    }
  }

  lemma CreateStrict(d: Db, c: WorkCall)
    requires Inv(d) && Strict(d) && (c.CreateGoal? || c.CreateTask? || c.CreatePlan?)
    ensures Strictly(d, Work.Apply(d, c).db)
  {
    hide Inv, Evolves, Strict, Strictly, CreatePlanTx, CreateTaskTx, AllMinted;
    match c
    case CreatePlan(t) => CreatePlanStrict(d, t);
    case CreateGoal(_) => CreateGoalStrict(d, c);
    case CreateTask(_, _, _, _, _) => CreateTaskStrict(d, c);
  }

  lemma CreateGoalStrict(d: Db, c: WorkCall)
    requires Inv(d) && Strict(d) && c.CreateGoal?
    ensures Strictly(d, Work.Apply(d, c).db)
  {
    hide Inv, Evolves, Strict, Strictly;
    CreateKeeps(d, c);
    MintedKeys(d);
    OuterWrite(d, Work.Apply(d, c).db);
  }

  /** A task row rewritten in place: forward, budget kept, pointer kept or moved off a dead plan onto a live one. */
  lemma TaskRowStrict(d: Db, id: Id, t: Task)
    requires Inv(d) && Strict(d) && id in d.tasks && Evolves(d, d.(tasks := d.tasks[id := t]))
    requires TaskForward(d.tasks[id], t) && t.attemptsUsed == d.tasks[id].attemptsUsed
    requires PointerMoved(d.tasks[id], t) ==>
               d.tasks[id].activePlan.value in d.plans && Displaceable(d.plans[d.tasks[id].activePlan.value].status)
    requires t.activePlan.Some? && t.activePlan != d.tasks[id].activePlan && t.activePlan.value in d.plans ==>
               !PlanTerminal(d.plans[t.activePlan.value].status)
    ensures Strictly(d, d.(tasks := d.tasks[id := t]))
  {
    hide Inv, Evolves, Strictly, Strict;
    TaskWrite(d, d.(tasks := d.tasks[id := t]));
  }

  lemma ActivateStrict(d: Db, task: Id, plan: Id, expected: nat)
    requires Inv(d) && Strict(d)
    ensures Strictly(d, ActivatePlanTx(d, task, plan, expected).db)
  {
    hide Inv, Evolves, Strictly, Strict;
    Unmoved(d);
    ActivateKeeps(d, task, plan, expected);
    if ActivatePlanTx(d, task, plan, expected).res.Ok? {
      TaskRowStrict(d, task, d.tasks[task].(activePlan := Some(plan), revision := d.tasks[task].revision + 1));
    }
  }

  lemma PlanRowStrict(d: Db, id: Id, p: Plan)
    requires Inv(d) && Strict(d) && id in d.plans && Evolves(d, d.(plans := d.plans[id := p]))
    requires PlanForward(d.plans[id], p) && p.graph == d.plans[id].graph && SupersessionOk(d.plans[id := p])
    ensures Strictly(d, d.(plans := d.plans[id := p]))
  {
    hide Inv, Evolves, Strictly, Acyclic, SupersessionOk, ResolutionsGrounded, ObservationsExact, GraphMirrored;
    MirrorSameGraph(d.plans, d.steps, id, p);
    PlanWrite(d, d.(plans := d.plans[id := p]));
  }

  lemma MirrorSameGraph(plans: map<Id, Plan>, steps: map<Id, Step>, id: Id, p: Plan)
    requires GraphMirrored(plans, steps) && id in plans && p.graph == plans[id].graph
    ensures GraphMirrored(plans[id := p], steps)
  {
  }

  /** Old plan SUPERSEDED and pointer moved: in this order each write alone is already sound. */
  lemma SupersedeStrict(d: Db, task: Id, oldPlan: Id, newPlan: Id, expected: nat)
    requires Inv(d) && Strict(d)
    ensures Strictly(d, SupersedePlanTx(d, task, oldPlan, newPlan, expected).db)
  {
    hide Inv, Evolves, Strictly, SupersessionOk;
    Unmoved(d);
    SupersedeKeeps(d, task, oldPlan, newPlan, expected);
    var r := SupersedePlanTx(d, task, oldPlan, newPlan, expected);
    if r.res.Ok? {
      var p := d.plans[oldPlan].(status := PSuperseded, supersededBy := Some(newPlan), revision := d.plans[oldPlan].revision + 1);
      var t := d.tasks[task].(activePlan := Some(newPlan), revision := d.tasks[task].revision + 1);
      LinkAdded(d.plans, oldPlan, newPlan, p);
      SupersedeSteps(d, task, oldPlan, p, t);
    }
  }

  lemma SupersedeSteps(d: Db, task: Id, oldPlan: Id, p: Plan, t: Task)
    requires Inv(d) && Strict(d) && task in d.tasks && oldPlan in d.plans
    requires PlanStep(d.plans[oldPlan], p) && p.status == PSuperseded && p.graph == d.plans[oldPlan].graph
    requires SupersessionOk(d.plans[oldPlan := p])
    requires d.tasks[task].activePlan == Some(oldPlan) && d.tasks[task].status in {TActive, TBlocked}
    requires t.activePlan.Some? && t.activePlan.value in d.plans && d.plans[t.activePlan.value].taskId == task
    requires d.plans[t.activePlan.value].status == PDraft
    requires t == d.tasks[task].(activePlan := t.activePlan, revision := d.tasks[task].revision + 1)
    ensures Strictly(d, d.(plans := d.plans[oldPlan := p], tasks := d.tasks[task := t]))
  {
    hide Inv, Evolves, Strict, Strictly, SupersessionOk, Acyclic;
    var d1 := d.(plans := d.plans[oldPlan := p]);
    var d2 := d1.(tasks := d1.tasks[task := t]);
    PlanReplaced(d, oldPlan, p);
    PlanRowStrict(d, oldPlan, p);
    OwnInv(d, d1);
    TaskReplaced(d1, task, t);
    TaskRowStrict(d1, task, t);
    StrictlyTransitive(d, d1, d2);
  }

  lemma OwnInv(z: Db, d: Db)
    requires Keeps(z, d) && Strictly(z, d)
    ensures Keeps(d, d) && Strict(d)
  {
    MintedKeys(d);
  }

  lemma GoalRowStrict(d: Db, id: Id, g: Goal)
    requires Inv(d) && Strict(d) && id in d.goals && Evolves(d, d.(goals := d.goals[id := g]))
    requires GoalForward(d.goals[id], g)
    ensures Strictly(d, d.(goals := d.goals[id := g]))
  {
    hide Inv, Evolves, Strict, Strictly;
    OuterWrite(d, d.(goals := d.goals[id := g]));
  }

  lemma StepRowStrict(d: Db, id: Id, s: Step)
    requires Inv(d) && Strict(d) && id in d.steps && Evolves(d, d.(steps := d.steps[id := s]))
    requires StepForward(d.steps[id], s) && s.planId == d.steps[id].planId && s.dependsOn == d.steps[id].dependsOn
    ensures Strictly(d, d.(steps := d.steps[id := s]))
  {
    hide Inv, Evolves, Strictly, Acyclic, SupersessionOk, ResolutionsGrounded, ObservationsExact;
    PlanWrite(d, d.(steps := d.steps[id := s]));
  }

  /** A commit followed by the hand-over of the obligations. */
  lemma ThenMove(d: Db, d1: Db, obj: Id)
    requires Keeps(d, d1) && Strictly(d, d1)
    ensures Strictly(d, MoveSubtree(d1, obj))
  {
    hide Inv, Evolves, StrictEvolves, Strict, MoveSubtree;
    MoveSubtreeStrict(d1, obj);
    StrictlyTransitive(d, d1, MoveSubtree(d1, obj));
  }

  lemma GoalEnds(d: Db, id: Id, s: GoalStatus)
    requires Inv(d) && Strict(d) && id in d.goals && !GoalTerminal(d.goals[id].status)
    ensures var d1 := d.(goals := d.goals[id := d.goals[id].(status := s, revision := d.goals[id].revision + 1)]);
            Strictly(d, d1) && Strictly(d, MoveSubtree(d1, id))
  {
    hide Inv, Evolves, Strict, Strictly, MoveSubtree;
    GoalEndKeeps(d, id, s);
    var g := d.goals[id].(status := s, revision := d.goals[id].revision + 1);
    GoalRowStrict(d, id, g);
    ThenMove(d, d.(goals := d.goals[id := g]), id);
  }

  lemma TaskEnds(d: Db, id: Id, s: TaskStatus, p: Option<Id>)
    requires Inv(d) && Strict(d) && id in d.tasks && !TaskTerminal(d.tasks[id].status)
    requires p == d.tasks[id].activePlan || (p == None && TaskTerminal(s))
    ensures var d1 := d.(tasks := d.tasks[id := d.tasks[id].(status := s, activePlan := p, revision := d.tasks[id].revision + 1)]);
            Strictly(d, d1) && Strictly(d, MoveSubtree(d1, id))
  {
    hide Inv, Evolves, Strict, Strictly, MoveSubtree;
    TaskEndKeeps(d, id, s, p);
    var t := d.tasks[id].(status := s, activePlan := p, revision := d.tasks[id].revision + 1);
    TaskRowStrict(d, id, t);
    ThenMove(d, d.(tasks := d.tasks[id := t]), id);
  }

  lemma CompleteStrict(d: Db, obj: Id, expected: nat, criterion: bool)
    requires Inv(d) && Strict(d)
    ensures Strictly(d, CompleteTx(d, obj, expected, criterion).db)
  {
    hide Inv, Strict, Strictly, MoveSubtree, EvaluateCompletion, AllRequiredPass, GoalChildren, TaskChildren;
    Unmoved(d);
    if CompleteTx(d, obj, expected, criterion).res.Ok? {
      if obj in d.goals { GoalEnds(d, obj, GCompleted); } else { TaskEnds(d, obj, TCompleted, None); }
    }
  }

  lemma TerminateStrict(d: Db, obj: Id, target: WorkStatus, expected: nat)
    requires Inv(d) && Strict(d) && (target.OfTask? ==> TaskTerminal(target.task))
    ensures Strictly(d, TerminateTx(d, obj, target, expected).db)
  {
    hide Inv, Strict, Strictly, MoveSubtree;
    Unmoved(d);
    if TerminateTx(d, obj, target, expected).res.Ok? {
      if obj in d.goals { GoalEnds(d, obj, target.goal); } else { TaskEnds(d, obj, target.task, None); }
    }
  }

  lemma PlanMoves(d: Db, id: Id, s: PlanStatus)
    requires Inv(d) && Strict(d) && id in d.plans && !PlanTerminal(d.plans[id].status)
    ensures Strictly(d, d.(plans := d.plans[id := d.plans[id].(status := s, revision := d.plans[id].revision + 1)]))
  {
    hide Inv, Evolves, Strictly, Acyclic;
    WorkFacts(d);
    var p := d.plans[id].(status := s, revision := d.plans[id].revision + 1);
    PutPlan(d, d, id, p);
    LinksOfUnsuperseded(d.plans, id, p);
    PlanRowStrict(d, id, p);
  }

  lemma StepAdvances(d: Db, id: Id, s: StepStatus)
    requires Inv(d) && Strict(d) && id in d.steps && !StepTerminal(d.steps[id].status)
    ensures Strictly(d, d.(steps := d.steps[id := d.steps[id].(status := s, revision := d.steps[id].revision + 1)]))
  {
    hide Inv, Evolves, Strict, Strictly;
    var row := d.steps[id].(status := s, revision := d.steps[id].revision + 1);
    StepReplaced(d, id, row);
    StepRowStrict(d, id, row);
  }

  lemma TransitionStrict(d: Db, obj: Id, target: WorkStatus, expected: nat)
    requires Inv(d) && Strict(d)
    ensures Strictly(d, TransitionTx(d, obj, target, expected).db)
  {
    hide Inv, Strict, Strictly, MoveSubtree;
    Unmoved(d);
    if TransitionTx(d, obj, target, expected).res.Ok? {
      match Load(d, obj)
      case AGoal(_) => GoalEnds(d, obj, target.goal);
      case ATask(t) => TaskEnds(d, obj, target.task, t.activePlan);
      case APlan(_) => PlanMoves(d, obj, target.plan);
      case AStep(_) => StepAdvances(d, obj, target.step);
      case _ =>
    }
  }

  lemma FreezeStrict(d: Db, obj: Id)
    requires Inv(d) && Strict(d)
    ensures Strictly(d, FreezeObjectTx(d, obj).db)
  {
    hide Inv, Evolves, Strict, Strictly;
    Unmoved(d);
    FreezeKeeps(d, obj);
    if FreezeObjectTx(d, obj).db != d {
      match Load(d, obj)
      case AGoal(g) => GoalRowStrict(d, obj, g.(integrity := Frozen, revision := g.revision + 1));
      case ATask(t) => TaskRowStrict(d, obj, t.(integrity := Frozen, revision := t.revision + 1));
      case _ =>
    }
  }

  lemma BindStrict(d: Db, obj: Id, ver: Id)
    requires Inv(d) && Strict(d)
    ensures Strictly(d, BindTx(d, obj, ver).db)
  {
    hide Inv, Evolves, Strict, Strictly;
    Unmoved(d);
    BindKeeps(d, obj, ver);
    if BindTx(d, obj, ver).res.Ok? { OuterWrite(d, d.(required := d.required + {(obj, ver)})); }
  }

  lemma CompleteStepStrict(d: Db, step: Id, expected: nat)
    requires Inv(d) && Strict(d)
    ensures Strictly(d, CompleteStepTx(d, step, expected).db)
  {
    hide Inv, Strict, Strictly;
    Unmoved(d);
    if CompleteStepTx(d, step, expected).res.Ok? { StepAdvances(d, step, SCompleted); }
  }

  lemma WorkStrict(d: Db, c: WorkCall)
    requires Inv(d) && Strict(d)
    ensures Strictly(d, Work.Apply(d, c).db)
  {
    hide Inv, Evolves, Strict, Strictly, CreateStepTx, AddDependencyTx, CreatePlanWithStepsTx, ActivatePlanTx, SupersedePlanTx,
         CompleteTx, TerminateTx, TransitionTx, FreezeObjectTx, BindTx, CompleteStepTx;
    Unmoved(d);
    WorkKeeps(d, c);
    match c
    case CreateStep(p, r, deps, cap) => CreateStepStrict(d, p, r, deps, cap);
    case AddDependency(p, s, on, e) => AddDependencyStrict(d, p, s, on, e);
    case CreatePlanWithSteps(reg, t, specs, e) => CreatePlanWithStepsStrict(d, reg, t, specs, e);
    case ActivatePlan(t, p, e) => ActivateStrict(d, t, p, e);
    case SupersedePlan(t, p, q, e) => SupersedeStrict(d, t, p, q, e);
    case Complete(o, e, crit) => CompleteStrict(d, o, e, crit);
    case CancelTask(o, e) => TerminateStrict(d, o, OfTask(TCancelled), e);
    case CancelGoal(o, e) => TerminateStrict(d, o, OfGoal(GCancelled), e);
    case Archive(o, e) =>
      TerminateStrict(d, o, OfGoal(GArchived), e);
      TerminateStrict(d, o, OfTask(TArchived), e);
    case Transition(o, s, e) => TransitionStrict(d, o, s, e);
    case Bind(o, v) => BindStrict(d, o, v);
    case CompleteStep(s, e) => CompleteStepStrict(d, s, e);
    case FreezeObject(o) => FreezeStrict(d, o);
    case _ => CreateStrict(d, c);
  }

  // -------------------------------------------------------------------------------- actions

  /** An action row rewritten in place, its status unchanged or moved forward to anything but OBSERVED. */
  lemma ActionRowStrict(d: Db, id: Id, a: Action)
    requires Inv(d) && Strict(d) && id in d.actions && Evolves(d, d.(actions := d.actions[id := a]))
    requires ActionForward(d.actions[id], a) && (d.actions[id].status == AObserved ==> a.status == AObserved)
    ensures Strictly(d, d.(actions := d.actions[id := a]))
  {
    hide Inv, Evolves, Strictly, GraphMirrored, SupersessionOk, ResolutionsGrounded;
    ActionWrite(d, d.(actions := d.actions[id := a]));
  }

  lemma ExactAfterObservation(actions: map<Id, Action>, observations: map<Id, Observation>, id: Id, o: Id, raw: string)
    requires ObservationsExact(actions, observations) && id in actions && actions[id].status == AExecuting && o !in observations
    ensures ObservationsExact(actions[id := Advanced(actions[id], AObserved)], observations[o := Observation(id, raw)])
  {
  }

  lemma MarkObservedStrict(d: Db, id: Id, expected: nat, raw: string, plan: Option<Id>)
    requires Inv(d) && Strict(d)
    ensures Strictly(d, MarkObservedTx(d, id, expected, raw, plan).db)
  {
    hide Inv, Evolves, Strictly, GraphMirrored, SupersessionOk, ResolutionsGrounded, PlanMismatchReason,
         ObservationsExact;
    Unmoved(d);
    MintedKeys(d);
    MarkObservedKeeps(d, id, expected, raw, plan);
    var r := MarkObservedTx(d, id, expected, raw, plan);
    if r.res.Ok? {
      ExactAfterObservation(d.actions, d.observations, id, Id(ObservationK, d.next), raw);
      ActionWrite(d, r.db);
    }
  }

  lemma MarkUnknownStrict(d: Db, id: Id, expected: nat)
    requires Inv(d) && Strict(d)
    ensures Strictly(d, MarkUnknownTx(d, id, expected).db)
  {
    hide Inv, Evolves, Strict, Strictly, OwningTask;
    Unmoved(d);
    if MarkUnknownTx(d, id, expected).res.Ok? {
      OwnerKnown(d, d.actions[id]) by { InvHas(d, ActionsSound); }
      UnknownSteps(d, id, OwningTask(d, d.actions[id]).value);
    }
  }

  lemma UnknownSteps(d: Db, id: Id, owner: Id)
    requires Inv(d) && Strict(d) && id in d.actions && owner in d.tasks && d.actions[id].status == AExecuting
    ensures Strictly(d, Advance(d, id, AUnknown).(next := d.next + 1,
                          obligations := d.obligations[Id(ObligationK, d.next) := NewObligation(id, Owned(owner))]))
  {
    hide Inv, Evolves, Strict, Strictly;
    var d1 := d.(next := d.next + 1, obligations := d.obligations[Id(ObligationK, d.next) := NewObligation(id, Owned(owner))]);
    NewObligationStrict(d, NewObligation(id, Owned(owner)));
    OwnInv(d, d1);
    ActionMoves(d1, id, Advanced(d.actions[id], AUnknown));
    ActionRowStrict(d1, id, Advanced(d.actions[id], AUnknown));
    StrictlyTransitive(d, d1, d1.(actions := d1.actions[id := Advanced(d.actions[id], AUnknown)]));
  }

  lemma CreateActionStrict(d: Db, c: ActionCall)
    requires Inv(d) && Strict(d) && c.CreateAction?
    ensures Strictly(d, CreateActionTx(d, c).db)
  {
    hide Inv, Evolves, Strictly, GraphMirrored, SupersessionOk, ResolutionsGrounded;
    Unmoved(d);
    MintedKeys(d);
    CreateActionKeeps(d, c);
    if CreateActionTx(d, c).res.Ok? { ActionWrite(d, CreateActionTx(d, c).db); }
  }

  /** The only commit that adds a retry adds exactly one, to the task it reaches. */
  lemma RetryAddsOne(d: Db, id: Id, expectedTask: nat, t: Id)
    requires Inv(d) && RetryTx(d, id, expectedTask).res.Ok?
    ensures Retries(RetryTx(d, id, expectedTask).db, t)
         == Retries(d, t) + (if OwningTask(d, d.actions[id]) == Some(t) then {Id(ActionK, d.next)} else {})
    ensures Id(ActionK, d.next) !in Retries(d, t)
  {
    hide Inv;
    assert Id(ActionK, d.next) !in d.actions by { MintedKeys(d); }
    var d' := RetryTx(d, id, expectedTask).db;
    forall i ensures RetryReaching(d', t, i) <==>
      RetryReaching(d, t, i) || (i == Id(ActionK, d.next) && OwningTask(d, d.actions[id]) == Some(t)) {
    }
  }

  lemma RetryAccounts(d: Db, id: Id, expectedTask: nat, t: Id)
    requires Inv(d) && RetryTx(d, id, expectedTask).res.Ok? && t in d.tasks
    ensures var d' := RetryTx(d, id, expectedTask).db;
            t in d'.tasks
            && d'.tasks[t].attemptsUsed - d.tasks[t].attemptsUsed == |Retries(d', t)| - |Retries(d, t)|
  {
    hide Inv, Retries, OwningTask;
    RetryAddsOne(d, id, expectedTask, t);
  }

  lemma RetryKeepsStrict(d: Db, id: Id, expectedTask: nat)
    requires Inv(d) && Strict(d) && RetryTx(d, id, expectedTask).res.Ok?
    ensures Strict(RetryTx(d, id, expectedTask).db)
  {
    hide Inv, GraphMirrored, SupersessionOk, ResolutionsGrounded, OwningTask;
    MintedKeys(d);
  }

  lemma RetryRowsForward(d: Db, id: Id, expectedTask: nat)
    requires Inv(d) && RetryTx(d, id, expectedTask).res.Ok?
    ensures RowsForward(d, RetryTx(d, id, expectedTask).db)
  {
    hide Inv, OwningTask;
    assert Id(ActionK, d.next) !in d.actions by { MintedKeys(d); }
  }

  lemma RetryPointers(d: Db, id: Id, expectedTask: nat)
    requires RetryTx(d, id, expectedTask).res.Ok?
    ensures PointerForward(d, RetryTx(d, id, expectedTask).db)
  {
    hide OwningTask;
  }

  lemma RetryStrict(d: Db, id: Id, expectedTask: nat)
    requires Inv(d) && Strict(d)
    ensures Strictly(d, RetryTx(d, id, expectedTask).db)
  {
    hide Inv, Strict, RowsForward, PointerForward, Retries, OwningTask;
    Unmoved(d);
    var r := RetryTx(d, id, expectedTask);
    if r.res.Ok? {
      RetryKeepsStrict(d, id, expectedTask);
      RetryRowsForward(d, id, expectedTask);
      RetryPointers(d, id, expectedTask);
      forall t | t in d.tasks && t in r.db.tasks
        ensures r.db.tasks[t].attemptsUsed - d.tasks[t].attemptsUsed == |Retries(r.db, t)| - |Retries(d, t)|
      {
        RetryAccounts(d, id, expectedTask, t);
      }
    }
  }

  /** Any action moved along its table to a status other than OBSERVED. */
  lemma AdvanceStrict(d: Db, id: Id, s: ActionStatus)
    requires Inv(d) && Strict(d) && id in d.actions && s in ActionNext(d.actions[id].status) && s != AObserved
    ensures Strictly(d, Advance(d, id, s))
  {
    hide Inv, Evolves, Strict, Strictly;
    ActionMoves(d, id, Advanced(d.actions[id], s));
    ActionRowStrict(d, id, Advanced(d.actions[id], s));
  }

  lemma FreezeActionStrict(d: Db, id: Id)
    requires Inv(d) && Strict(d)
    ensures Strictly(d, FreezeActionTx(d, id).db)
  {
    hide Inv, Evolves, Strict, Strictly;
    Unmoved(d);
    if id in d.actions {
      var a := d.actions[id].(integrity := Frozen, revision := d.actions[id].revision + 1);
      ActionMoves(d, id, a);
      ActionRowStrict(d, id, a);
    }
  }

  lemma AdvancingCallStrict(d: Db, c: ActionCall)
    requires Inv(d) && Strict(d) && (c.Begin? || c.MarkFailed? || c.CancelAction?)
    ensures Strictly(d, Execution.Apply(d, c).db)
  {
    hide Inv, Strict, Strictly, PlanMismatchReason, GateOpens, Advance;
    Unmoved(d);
    if Execution.Apply(d, c).res.Ok? {
      AdvanceStrict(d, c.action, if c.Begin? then AExecuting else if c.MarkFailed? then AFailed else ACancelled);
    }
  }

  lemma ActionCallStrict(d: Db, c: ActionCall)
    requires Inv(d) && Strict(d)
    ensures Strictly(d, Execution.Apply(d, c).db)
  {
    hide Inv, Strict, Strictly, CreateActionTx, MarkObservedTx, MarkUnknownTx, RetryTx, BeginTx, MarkFailedTx, CancelActionTx,
         FreezeActionTx;
    match c
    case CreateAction(_, _, _, _, _, _, _) => CreateActionStrict(d, c);
    case MarkObserved(a, e, raw, p) => MarkObservedStrict(d, a, e, raw, p);
    case MarkUnknown(a, e) => MarkUnknownStrict(d, a, e);
    case Retry(a, e) => RetryStrict(d, a, e);
    case FreezeAction(a) => FreezeActionStrict(d, a);
    case _ => AdvancingCallStrict(d, c);
  }

  // -------------------------------------------------------- evidence, verifications, confirmations

  lemma ReviseStrict(d: Db, id: Id, basedOn: seq<Id>, c: Confidence)
    requires Inv(d) && Strict(d)
    ensures Strictly(d, ReviseClaimTx(d, id, basedOn, c).db)
  {
    hide Inv, Evolves, Strict, Strictly, Cited, Justified, MaxVersion;
    Unmoved(d);
    EvidenceCallKeeps(d, ReviseClaim(id, basedOn, c));
    var r := ReviseClaimTx(d, id, basedOn, c);
    if r.res.Ok? { OuterWrite(d, r.db); }
  }

  lemma EvidenceCallStrict(d: Db, c: EvidenceCall)
    requires Inv(d) && Strict(d)
    ensures Strictly(d, EvidencePipeline.Apply(d, c).db)
  {
    hide Inv, Evolves, Strict, Strictly, Cited, Justified, ClaimExists, ReviseClaimTx;
    Unmoved(d);
    EvidenceCallKeeps(d, c);
    var r := EvidencePipeline.Apply(d, c);
    match c
    case ReviseClaim(id, b, conf) => ReviseStrict(d, id, b, conf);
    case _ => if r.db != d { OuterWrite(d, r.db); }
  }

  lemma StartVerificationStrict(d: Db, id: Id, action: Option<Id>)
    requires Inv(d) && Strict(d)
    ensures Strictly(d, StartVerificationTx(d, id, action).db)
  {
    hide Inv, Evolves, Strict, Strictly, GateFault;
    Unmoved(d);
    StartVerificationKeeps(d, id, action);
    if StartVerificationTx(d, id, action).res.Ok? { OuterWrite(d, SetResult(d, id, VRunning, false)); }
  }

  lemma FinishVerificationStrict(d: Db, id: Id, action: Option<Id>, verdict: Verdict)
    requires Inv(d) && Strict(d)
    ensures Strictly(d, FinishVerificationTx(d, id, action, verdict).db)
  {
    hide Inv, Evolves, Strict, Strictly, GateFault, ClaimExists;
    Unmoved(d);
    FinishVerificationKeeps(d, id, action, verdict);
    var r := FinishVerificationTx(d, id, action, verdict);
    if r.res.Ok? { OuterWrite(d, r.db); }
  }

  lemma SafetyCallStrict(d: Db, c: SafetyCall)
    requires Inv(d) && Strict(d)
    ensures Strictly(d, Safety.Apply(d, c).db)
  {
    hide Inv, Evolves, Strict, Strictly, AllMinted;
    SafetyCallKeeps(d, c);
    var d' := Safety.Apply(d, c).db;
    assert d' == d.(next := d'.next, confirmations := d'.confirmations);
    OuterWrite(d, d');
  }
}
